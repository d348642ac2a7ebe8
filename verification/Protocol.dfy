/** The job protocol as a state machine: one stored document, any number of workers.

    The document is the history of its versions and a revision is an index into it. A worker
    runs the operations of its job in order; the steps of different workers interleave at every
    Edit, Retrieve and unit of foreign work, and a worker that crashed simply takes no more
    steps. Edit is optimistic: it stores the caller's copy only when that copy carries the
    newest revision, and otherwise answers 409 Conflict (section 15.5.10 of RFC 9110). The
    revision Edit returns is discarded by the caller, so a copy that has just been stored is
    left one revision behind. */
module Protocol {
  import opened Documents

  datatype Copy = Copy(rev: nat, body: Body)

  datatype Author = Inserted | By(worker: nat, update: Update)

  datatype Version = Version(body: Body, author: Author)

  function Newest(h: seq<Version>): Copy
    requires h != []
  {
    Copy(|h| - 1, h[|h| - 1].body)
  }

  /** Which struct a method works on: `Pointer` is the receiver of Run itself, `Fork` a copy of
      it made by a value receiver, `SameFork` the copy the previous call already worked on. */
  datatype Receiver = Pointer | Fork | SameFork

  /** What happens when a call ends in a store error other than 409: the error is recorded by
      failing the job, or the rest of the enclosing method is skipped. */
  datatype OnError = Record | Skip

  datatype Assignment = OutputUrls(out: string, err: string) | SourceUrl(url: string)

  datatype Op =
    | Claim                                       // UpdateProcessingState(Processing), and stop unless it won
    | Assign(fields: Assignment)                  // plain assignment to the receiver's fields
    | Work                                        // a foreign stage that may fail the run
    | Attempt                                     // a foreign stage whose failure is recorded, and the run goes on
    | Put(update: Update, receiver: Receiver, onError: OnError)       // a casUpdate whose boolean is ignored

  datatype Job =
    | Training(labels: seq<string>, modelUrl: string, out: string, err: string)
    | Classify(results: map<string, string>)
    | Datafile(url: string)
    | DatasetSplit
    | DatasetDownload
    | ArtifactWriter(training: string, testing: string)

  /** The operations of a run whose stages all succeed. */
  function Program(job: Job): seq<Op> {
    match job
    case Training(labels, modelUrl, out, err) =>
      [Claim, Assign(OutputUrls(out, err)),
       Work, Put(SetLabels(Some(labels)), Fork, Record),
       Work, Put(SetModelUrl(modelUrl), Fork, Record),
       Put(SetState(FinishedSuccessfully), Fork, Skip), Put(SetLog(""), SameFork, Skip)]
    case Classify(results) =>
      [Claim, Work, Work, Work, Work, Work, Work, Work,
       Put(SetResults(Some(results)), Pointer, Record),
       Put(SetState(FinishedSuccessfully), Pointer, Record)]
    case Datafile(url) =>
      [Claim, Work, Work, Assign(SourceUrl(url)),
       Put(SetState(FinishedSuccessfully), Fork, Record)]
    case DatasetSplit =>
      [Claim, Work, Work, Work, Work,
       Put(SetState(FinishedSuccessfully), Fork, Skip), Put(SetState(FinishedSuccessfully), Fork, Record)]
    case DatasetDownload =>
      [Claim, Work, Attempt, Attempt,
       Put(SetState(FinishedSuccessfully), Fork, Record)]
    case ArtifactWriter(training, testing) =>
      [Put(SetArtifactUrls(training, testing), Pointer, Skip)]
  }

  /** What `recordProcessingError` does. A datafile's Failed drops the message. */
  function FailureOps(job: Job, message: string): seq<Op> {
    [Put(SetState(Failed), Fork, Skip)] +
    if job.Datafile? then [] else [Put(SetLog(message), SameFork, Skip)]
  }

  datatype Outcome = Won | Lost | Errored

  datatype Call = Call(update: Update, outcome: Outcome)

  datatype Phase = Between | Editing | Refreshing

  /** `mine` is the receiver of Run, `local` the copy the current or latest call worked on.
      `passed`, `failure` and `calls` record what happened: stages that succeeded, the error
      that ended the run early, and the finished `casUpdate` calls. */
  datatype Worker = Worker(job: Job, mine: Copy, local: Copy, todo: seq<Op>, phase: Phase,
                           passed: nat, failure: Option<string>, calls: seq<Call>)

  predicate IsCall(op: Op) {
    op.Claim? || op.Put?
  }

  function UpdateOf(op: Op): Update
    requires IsCall(op)
  {
    if op.Claim? then SetState(Processing) else op.update
  }

  function ReceiverOf(op: Op): Receiver
    requires IsCall(op)
  {
    if op.Claim? then Pointer else op.receiver
  }

  predicate AtCall(w: Worker) {
    w.todo != [] && IsCall(w.todo[0])
  }

  const STORE_ERROR := "store error"

  /** The operations that are left when the call at the head of `todo` ends in `outcome`. */
  function Remaining(job: Job, todo: seq<Op>, outcome: Outcome): seq<Op>
    requires todo != [] && IsCall(todo[0])
  {
    if outcome.Errored? then
      if todo[0].Claim? || todo[0].onError.Record? then FailureOps(job, STORE_ERROR)
      else if |todo| > 1 && todo[1].Put? && todo[1].receiver.SameFork? then todo[2..]
      else todo[1..]
    else if todo[0].Claim? && outcome.Lost? then []
    else todo[1..]
  }

  function Rest(w: Worker, outcome: Outcome): seq<Op>
    requires AtCall(w)
  {
    Remaining(w.job, w.todo, outcome)
  }

  /** The return of the `casUpdate` call at the head of the worker's operations. */
  function Return(w: Worker, outcome: Outcome): Worker
    requires AtCall(w)
  {
    w.(mine := if ReceiverOf(w.todo[0]).Pointer? then w.local else w.mine,
       todo := Rest(w, outcome),
       phase := Between,
       failure := if outcome.Errored? && (w.todo[0].Claim? || w.todo[0].onError.Record?) then Some(STORE_ERROR)
                  else w.failure,
       calls := w.calls + [Call(UpdateOf(w.todo[0]), outcome)])
  }

  /** The done test on the local copy; if it fails, the updater, with Edit next. */
  function TestAndUpdate(w: Worker): Worker
    requires AtCall(w)
  {
    var u := UpdateOf(w.todo[0]);
    if Done(u, w.local.body) then Return(w, Lost)
    else w.(local := w.local.(body := Apply(u, w.local.body)), phase := Editing)
  }

  function Assigned(fields: Assignment, b: Body): Body {
    match fields
    case OutputUrls(out, err) => b.(stdOutUrl := out, stdErrUrl := err)
    case SourceUrl(url) => b.(sourceUrl := url)
  }

  datatype Event =
    | Spawn(id: nat, job: Job)                       // CreateJob: a new worker with a snapshot of the document
    | Step(id: nat)                                  // the next local step, Edit or Retrieve of a worker
    | Report(id: nat, error: Option<string>)         // a foreign stage ends
    | Fault(id: nat, stored: bool)                   // Edit or Retrieve fails with an error other than 409

  datatype Result = Result(history: seq<Version>, worker: Worker)

  predicate CanStep(w: Worker) {
    w.todo != [] && (IsCall(w.todo[0]) || w.todo[0].Assign?)
  }

  function Advance(h: seq<Version>, id: nat, w: Worker): Result
    requires h != [] && CanStep(w)
  {
    if w.todo[0].Assign? then
      Result(h, w.(mine := w.mine.(body := Assigned(w.todo[0].fields, w.mine.body)), todo := w.todo[1..]))
    else
      match w.phase
      case Between =>
        Result(h, TestAndUpdate(w.(local := if ReceiverOf(w.todo[0]).SameFork? then w.local else w.mine)))
      case Editing =>
        if w.local.rev == |h| - 1 then
          Result(h + [Version(w.local.body, By(id, UpdateOf(w.todo[0])))], Return(w, Won))
        else
          Result(h, w.(phase := Refreshing))
      case Refreshing =>
        Result(h, TestAndUpdate(w.(local := Newest(h))))
  }

  predicate IsStage(op: Op) {
    op.Work? || op.Attempt?
  }

  /** The operations that are left when the stage at the head of `todo` ends. */
  function RemainingAfterStage(job: Job, todo: seq<Op>, error: Option<string>): seq<Op>
    requires todo != [] && IsStage(todo[0])
  {
    if error.None? then todo[1..]
    else if todo[0].Work? then FailureOps(job, error.value)
    else FailureOps(job, error.value) + todo[1..]
  }

  function Reported(w: Worker, error: Option<string>): Worker
    requires w.todo != [] && IsStage(w.todo[0])
  {
    w.(todo := RemainingAfterStage(w.job, w.todo, error),
       passed := if error.None? then w.passed + 1 else w.passed,
       failure := if error.Some? && w.todo[0].Work? then error else w.failure)
  }

  /** A store error other than 409; when `stored`, the write took effect but its answer was lost. */
  function Failing(h: seq<Version>, id: nat, w: Worker, stored: bool): Result
    requires h != [] && AtCall(w)
  {
    Result(if stored && w.phase.Editing? && w.local.rev == |h| - 1
           then h + [Version(w.local.body, By(id, UpdateOf(w.todo[0])))] else h,
           Return(w, Errored))
  }

  /** `finished` lists every finished `casUpdate` call, and `faults` counts the store errors. */
  datatype State = State(history: seq<Version>, workers: map<nat, Worker>, finished: seq<Call>, faults: nat)

  predicate Init(s: State) {
    && |s.history| == 1
    && s.history[0].author == Inserted
    && s.workers == map[]
    && s.finished == []
    && s.faults == 0
  }

  function NewWorker(h: seq<Version>, job: Job): Worker
    requires h != []
  {
    // The endpoint that inserted a dataset goes on with the very copy it inserted; every other
    // worker is created from the version that is newest at that moment.
    var snapshot := if job.ArtifactWriter? then Copy(0, h[0].body) else Newest(h);
    Worker(job, snapshot, snapshot, Program(job), Between, 0, None, [])
  }

  predicate Enabled(s: State, e: Event) {
    s.history != [] &&
    match e
    case Spawn(id, _) => id !in s.workers
    case Step(id) => id in s.workers && CanStep(s.workers[id])
    case Report(id, _) => id in s.workers && s.workers[id].todo != [] && IsStage(s.workers[id].todo[0])
    case Fault(id, _) => id in s.workers && AtCall(s.workers[id]) && !s.workers[id].phase.Between?
  }

  /** The event is an Edit that takes effect. */
  predicate Appends(s: State, e: Event)
    requires Enabled(s, e)
  {
    (e.Step? || (e.Fault? && e.stored)) &&
    var w := s.workers[e.id];
    AtCall(w) && w.phase.Editing? && w.local.rev == |s.history| - 1
  }

  function Settle(s: State, id: nat, r: Result): State
    requires id in s.workers
  {
    s.(history := r.history, workers := s.workers[id := r.worker],
       finished := if |r.worker.calls| == |s.workers[id].calls| + 1
                  then s.finished + [r.worker.calls[|r.worker.calls| - 1]] else s.finished)
  }

  function Next(s: State, e: Event): State
    requires Enabled(s, e)
  {
    match e
    case Spawn(id, job) => s.(workers := s.workers[id := NewWorker(s.history, job)])
    case Step(id) => Settle(s, id, Advance(s.history, id, s.workers[id]))
    case Report(id, error) => s.(workers := s.workers[id := Reported(s.workers[id], error)])
    case Fault(id, stored) => Settle(s, id, Failing(s.history, id, s.workers[id], stored)).(faults := s.faults + 1)
  }

  /** A run is a list of events, each enabled where it happens. */
  predicate Legal(s: State, run: seq<Event>)
    decreases |run|
  {
    run == [] || (Enabled(s, run[0]) && Legal(Next(s, run[0]), run[1..]))
  }

  function Exec(s: State, run: seq<Event>): State
    requires Legal(s, run)
    decreases |run|
  {
    if run == [] then s else Exec(Next(s, run[0]), run[1..])
  }

  /** The predicate holds in the first, the last and every other state of the run. */
  ghost predicate Always(p: State -> bool, s: State, run: seq<Event>)
    requires Legal(s, run)
    decreases |run|
  {
    p(s) && (run == [] || Always(p, Next(s, run[0]), run[1..]))
  }
}
