/** Mutual exclusion of the workers of one training job, classify job or datafile, and the
    verdict each of them leaves behind, over every run without store errors. */
module NonOverlap {
  import opened Documents
  import opened Protocol
  import opened NoLostUpdates

  /** The states a worker's own calls stored, in order. */
  ghost function StateWins(calls: seq<Call>): seq<ProcessingState> {
    if calls == [] then []
    else
      var c := calls[|calls| - 1];
      StateWins(calls[..|calls| - 1]) + if c.outcome.Won? && c.update.SetState? then [c.update.state] else []
  }

  /** Between its winning claim and its terminal-state write. */
  ghost predicate Holding(w: Worker) {
    StateWins(w.calls) == [Processing]
  }

  predicate Exclusive(job: Job) {
    !job.DatasetSplit? && !job.DatasetDownload?
  }

  function Verdict(w: Worker): ProcessingState {
    if w.failure.None? then FinishedSuccessfully else Failed
  }

  /** What a job logs after its terminal state: the first failing stage's error, or, for a
      training job that succeeded, the empty string. */
  predicate Logs(w: Worker) {
    if w.failure.None? then w.job.Training? else !w.job.Datafile?
  }

  function Message(w: Worker): string {
    if w.failure.None? then "" else w.failure.value
  }

  function Tail(w: Worker): seq<Op> {
    if Logs(w) then [Put(SetLog(Message(w)), SameFork, Skip)] else []
  }

  predicate IsVerdict(op: Op) {
    op.Put? && op.update.SetState?
  }

  /** Stages and writes of other fields, then one terminal-state write, then the tail. */
  predicate HoldShape(todo: seq<Op>, st: ProcessingState, tail: seq<Op>) {
    todo != [] &&
    if IsVerdict(todo[0]) then
      todo[0].update.state == st && !todo[0].receiver.SameFork? && todo[1..] == tail
    else
      (todo[0].Work? || todo[0].Assign? || (todo[0].Put? && !todo[0].receiver.SameFork?))
            && HoldShape(todo[1..], st, tail)
  }

  function Stages(ops: seq<Op>): nat {
    if ops == [] then 0 else (if ops[0].Work? then 1 else 0) + Stages(ops[1..])
  }

  /** Version t is the worker's own terminal version. */
  ghost predicate OwnVerdict(h: seq<Version>, id: nat, w: Worker, t: nat) {
    t < |h| && h[t].author == By(id, SetState(Verdict(w))) && h[t].body.state == Verdict(w)
  }

  ghost predicate LoggedFrom(h: seq<Version>, w: Worker, t: nat) {
    exists k: nat :: t <= k < |h| && h[k].body.log == Message(w)
  }

  ghost predicate Released(h: seq<Version>, id: nat, w: Worker) {
    exists t: nat :: OwnVerdict(h, id, w, t) &&
      if w.todo == [] then Logs(w) ==> LoggedFrom(h, w, t)
      else w.todo == Tail(w) && (w.phase.Between? ==> w.local.body == h[t].body)
  }

  ghost predicate Disciplined(h: seq<Version>, id: nat, w: Worker)
    requires h != []
  {
    match |StateWins(w.calls)|
    case 0 =>
      w.failure.None? && w.todo == if w.calls == [] then Program(w.job) else []
    case 1 =>
      StateWins(w.calls) == [Processing] && h[|h| - 1].body.state == Processing && Held(w)
    case _ =>
      StateWins(w.calls) == [Processing, Verdict(w)] && Released(h, id, w)
  }

  ghost predicate Held(w: Worker) {
    && w.mine.body.state == Processing
    && HoldShape(w.todo, Verdict(w), Tail(w))
    && (!w.phase.Between? && !IsVerdict(w.todo[0]) ==> w.local.body.state == Processing)
  }

  /** A claim that came too late. */
  predicate Declined(w: Worker) {
    w.calls != [] && w.calls[0] == Call(SetState(Processing), Lost)
  }

  /** Stages passed and stages to come are all the stages, until one fails. */
  ghost predicate Counted(w: Worker) {
    && (Declined(w) ==> w.todo == [] && |w.calls| == 1)
    && (w.failure.None? && !Declined(w) ==> w.passed + Stages(w.todo) == Stages(Program(w.job)))
    && (w.failure.Some? ==> w.passed < Stages(Program(w.job)) && Stages(w.todo) == 0)
  }

  ghost predicate Orderly(h: seq<Version>, id: nat, w: Worker)
    requires h != []
  {
    Exclusive(w.job) && WorkerCoherent(h, w) && Counted(w) && Disciplined(h, id, w)
  }

  ghost predicate OneHolder(workers: map<nat, Worker>) {
    forall i, j :: i in workers && j in workers && Holding(workers[i]) && Holding(workers[j]) ==> i == j
  }

  /** At most one worker holds the document, and then it is in Processing. */
  ghost predicate Exclusion(s: State) {
    && s.history != []
    && OneHolder(s.workers)
    && (forall i :: i in s.workers && Holding(s.workers[i]) ==> s.history[|s.history| - 1].body.state == Processing)
  }

  ghost predicate Safe(s: State) {
    && Chain(s.history)
    && (forall id :: id in s.workers ==> Orderly(s.history, id, s.workers[id]))
    && Exclusion(s)
  }

  lemma WinsOfCall(calls: seq<Call>, c: Call)
    ensures StateWins(calls + [c]) == StateWins(calls)
              + if c.outcome.Won? && c.update.SetState? then [c.update.state] else []
  {
    assert (calls + [c])[..|calls|] == calls;
  }

  predicate Plain(op: Op) {
    op.Work? || op.Assign? || (op.Put? && !op.update.SetState? && !op.receiver.SameFork?)
  }

  lemma {:induction false} ShapeFrom(ops: seq<Op>, k: nat, m: nat, st: ProcessingState)
    requires k <= m < |ops| && (forall i :: k <= i < m ==> Plain(ops[i]))
    requires ops[m].Put? && ops[m].update == SetState(st) && !ops[m].receiver.SameFork?
    ensures HoldShape(ops[k..], st, ops[m + 1..])
    decreases m - k
  {
    if k < m {
      ShapeFrom(ops, k + 1, m, st);
      assert ops[k..][1..] == ops[k + 1..];
    } else {
      assert ops[k..][1..] == ops[m + 1..];
    }
  }

  lemma ProgramShape(w: Worker)
    requires Exclusive(w.job) && w.failure.None? && !w.job.ArtifactWriter?
    ensures Program(w.job)[0].Claim? && HoldShape(Program(w.job)[1..], FinishedSuccessfully, Tail(w))
  {
    var p := Program(w.job);
    var m := if w.job.Training? then 6 else if w.job.Classify? then 9 else 4;
    ShapeFrom(p, 1, m, FinishedSuccessfully);
    assert p[m + 1..] == Tail(w);
  }

  /** Appending another worker's version keeps a worker disciplined, if a holder's document
      stays in Processing. */
  lemma OtherStays(h: seq<Version>, v: Version, id: nat, w: Worker)
    requires h != [] && Disciplined(h, id, w) && (Holding(w) ==> v.body.state == Processing)
    ensures Disciplined(h + [v], id, w)
  {
    if |StateWins(w.calls)| > 1 {
      var t: nat :| OwnVerdict(h, id, w, t) &&
        if w.todo == [] then Logs(w) ==> LoggedFrom(h, w, t)
        else w.todo == Tail(w) && (w.phase.Between? ==> w.local.body == h[t].body);
      assert OwnVerdict(h + [v], id, w, t);
      if w.todo == [] && Logs(w) {
        var k: nat :| t <= k < |h| && h[k].body.log == Message(w);
        assert (h + [v])[k].body.log == Message(w);
      }
    }
  }

  /** The claim: it wins only by moving the document into Processing, and otherwise the worker stops. */
  lemma UnclaimedReturns(h: seq<Version>, id: nat, w: Worker, outcome: Outcome)
    requires h != [] && Exclusive(w.job) && w.calls == [] && w.failure.None? && w.todo == Program(w.job)
             && !outcome.Errored?
    requires outcome.Won? && w.todo[0].Claim? ==> h[|h| - 1].body.state == w.local.body.state == Processing
    ensures Disciplined(h, id, Return(w, outcome))
    ensures Holding(Return(w, outcome)) ==> w.todo[0].Claim? && outcome.Won?
  {
    var r := Return(w, outcome);
    WinsOfCall(w.calls, r.calls[0]);
    assert r.calls == w.calls + [r.calls[0]];
    if !w.job.ArtifactWriter? { ProgramShape(w); }
  }

  /** A holder's other writes leave it holding. */
  lemma HolderReturns(h: seq<Version>, id: nat, w: Worker, outcome: Outcome)
    requires h != [] && AtCall(w) && Holding(w) && Held(w) && !outcome.Errored?
    requires h[|h| - 1].body.state == w.local.body.state == Processing && !IsVerdict(w.todo[0])
    ensures Disciplined(h, id, Return(w, outcome)) && Holding(Return(w, outcome))
  {
    var r := Return(w, outcome);
    WinsOfCall(w.calls, r.calls[|w.calls|]);
  }

  /** The terminal write ends the hold with the worker's own verdict. */
  lemma HolderFinishes(h: seq<Version>, id: nat, w: Worker)
    requires h != [] && AtCall(w) && Holding(w) && Held(w) && IsVerdict(w.todo[0])
    requires h[|h| - 1].body == w.local.body && w.local.body.state == Verdict(w)
             && h[|h| - 1].author == By(id, SetState(Verdict(w)))
    ensures Disciplined(h, id, Return(w, Won)) && !Holding(Return(w, Won))
  {
    var r := Return(w, Won);
    WinsOfCall(w.calls, r.calls[|w.calls|]);
    assert OwnVerdict(h, id, r, |h| - 1);
  }

  /** After the terminal write only the log is written. */
  lemma ReleasedReturns(h: seq<Version>, id: nat, w: Worker, t: nat, outcome: Outcome)
    requires h != [] && StateWins(w.calls) == [Processing, Verdict(w)] && OwnVerdict(h, id, w, t)
             && w.todo == Tail(w) != []
    requires !outcome.Errored? && LoggedFrom(h, w, t)
    ensures Disciplined(h, id, Return(w, outcome)) && StateWins(Return(w, outcome).calls) == StateWins(w.calls)
  {
    var r := Return(w, outcome);
    WinsOfCall(w.calls, r.calls[|w.calls|]);
    assert OwnVerdict(h, id, r, t) && LoggedFrom(h, r, t);
  }

  lemma Unclaimed(h: seq<Version>, id: nat, w: Worker)
    requires Chain(h) && WorkerCoherent(h, w) && Disciplined(h, id, w) && Exclusive(w.job) && CanStep(w)
             && StateWins(w.calls) == []
    ensures var r := Advance(h, id, w);
            && Disciplined(r.history, id, r.worker)
            && (Holding(r.worker) ==> h[|h| - 1].body.state != Processing)
            && (r.history != h && !Holding(r.worker) ==> r.history[|h|].body.state == h[|h| - 1].body.state)
  {
    var r := Advance(h, id, w);
    var u := UpdateOf(w.todo[0]);
    if w.phase.Between? {
      UnclaimedReturns(h, id, w.(local := w.mine), Lost);
    } else if w.phase.Refreshing? {
      UnclaimedReturns(h, id, w.(local := Newest(h)), Lost);
    } else if w.local.rev == |h| - 1 {
      UnclaimedReturns(r.history, id, w, Won);
    }
  }

  /** A holder's done test never finds its terminal state already set. */
  lemma HolderTests(h: seq<Version>, id: nat, w: Worker)
    requires h != [] && AtCall(w) && Disciplined(h, id, w) && Holding(w) && w.local.body.state == Processing
    ensures Disciplined(h, id, TestAndUpdate(w)) && Holding(TestAndUpdate(w))
  {
    var u := UpdateOf(w.todo[0]);
    if Done(u, w.local.body) {
      assert !IsVerdict(w.todo[0]);
      HolderReturns(h, id, w, Lost);
    }
  }

  lemma HolderEdits(h: seq<Version>, id: nat, w: Worker)
    requires Chain(h) && WorkerCoherent(h, w) && Disciplined(h, id, w) && CanStep(w) && Holding(w)
    requires w.phase.Editing? && w.local.rev == |h| - 1
    ensures var r := Advance(h, id, w);
            && Disciplined(r.history, id, r.worker)
            && (Holding(r.worker) ==> r.history[|h|].body.state == Processing)
  {
    var h' := h + [Version(w.local.body, By(id, UpdateOf(w.todo[0])))];
    if IsVerdict(w.todo[0]) { HolderFinishes(h', id, w); } else { HolderReturns(h', id, w, Won); }
  }

  lemma HolderAssigns(h: seq<Version>, id: nat, w: Worker)
    requires Chain(h) && WorkerCoherent(h, w) && Disciplined(h, id, w) && CanStep(w) && Holding(w) && w.todo[0].Assign?
    ensures Disciplined(h, id, Advance(h, id, w).worker) && Advance(h, id, w).history == h
  {
  }

  lemma Holder(h: seq<Version>, id: nat, w: Worker)
    requires Chain(h) && WorkerCoherent(h, w) && Disciplined(h, id, w) && CanStep(w) && Holding(w)
    ensures var r := Advance(h, id, w);
            && Disciplined(r.history, id, r.worker)
            && (r.history != h && Holding(r.worker) ==> r.history[|h|].body.state == Processing)
  {
    match w.phase
    case Between => if AtCall(w) { HolderTests(h, id, w.(local := w.mine)); } else { HolderAssigns(h, id, w); }
    case Refreshing => HolderTests(h, id, w.(local := Newest(h)));
    case Editing => if w.local.rev == |h| - 1 { HolderEdits(h, id, w); }
  }

  lemma Releaser(h: seq<Version>, id: nat, w: Worker)
    requires Chain(h) && WorkerCoherent(h, w) && Disciplined(h, id, w) && CanStep(w) && |StateWins(w.calls)| > 1
    ensures var r := Advance(h, id, w);
            && Disciplined(r.history, id, r.worker) && StateWins(r.worker.calls) == StateWins(w.calls)
            && (r.history != h ==> r.history[|h|].body.state == h[|h| - 1].body.state)
  {
    var r := Advance(h, id, w);
    var t: nat :| OwnVerdict(h, id, w, t) && w.todo == Tail(w) && (w.phase.Between? ==> w.local.body == h[t].body);
    if w.phase.Between? {
      if Done(UpdateOf(w.todo[0]), w.local.body) { assert LoggedFrom(h, w, t); ReleasedReturns(h, id, w, t, Lost); }
    } else if w.phase.Refreshing? {
      if Done(UpdateOf(w.todo[0]), Newest(h).body) {
        assert LoggedFrom(h, w, t);
        ReleasedReturns(h, id, w.(local := Newest(h)), t, Lost);
      }
    } else if w.local.rev == |h| - 1 {
      assert r.history[|h|].body.log == Message(w);
      assert LoggedFrom(r.history, w, t);
      ReleasedReturns(r.history, id, w, t, Won);
    }
    assert OwnVerdict(r.history, id, r.worker, t);
  }

  lemma CountedReturns(w: Worker, outcome: Outcome)
    requires Counted(w) && AtCall(w) && !outcome.Errored? && Exclusive(w.job)
    requires w.calls == [] ==> w.todo == Program(w.job)
    requires w.todo[0].Claim? ==> w.calls == []
    ensures Counted(Return(w, outcome))
  {
    var r := Return(w, outcome);
    assert w.calls != [] ==> r.calls[0] == w.calls[0];
  }

  lemma ClaimsComeFirst(h: seq<Version>, id: nat, w: Worker)
    requires h != [] && Disciplined(h, id, w) && AtCall(w) && Exclusive(w.job)
    ensures w.calls == [] ==> w.todo == Program(w.job)
    ensures w.todo[0].Claim? ==> w.calls == []
  {
  }

  lemma CountedAdvances(h: seq<Version>, id: nat, w: Worker)
    requires h != [] && Counted(w) && CanStep(w) && Disciplined(h, id, w) && Exclusive(w.job)
    ensures Counted(Advance(h, id, w).worker)
  {
    if w.todo[0].Assign? {
      assert w.calls != [];
    } else {
      ClaimsComeFirst(h, id, w);
      match w.phase
      case Between => CountedTests(w.(local := if ReceiverOf(w.todo[0]).SameFork? then w.local else w.mine));
      case Refreshing => CountedTests(w.(local := Newest(h)));
      case Editing => if w.local.rev == |h| - 1 { CountedReturns(w, Won); }
    }
  }

  lemma CountedTests(w: Worker)
    requires Counted(w) && AtCall(w) && Exclusive(w.job)
    requires w.calls == [] ==> w.todo == Program(w.job)
    requires w.todo[0].Claim? ==> w.calls == []
    ensures Counted(TestAndUpdate(w))
  {
    if Done(UpdateOf(w.todo[0]), w.local.body) { CountedReturns(w, Lost); }
  }

  /** While the document is in Processing, only a holder's version may take it out. */
  ghost predicate Respects(h: seq<Version>, h': seq<Version>, w: Worker)
    requires h != []
  {
    h' == h || (|h'| == |h| + 1 && h' == h + [h'[|h|]]
                && (Holding(w) || h[|h| - 1].body.state != Processing || h'[|h|].body.state == Processing))
  }

  lemma StaysDisciplined(h: seq<Version>, id: nat, w: Worker)
    requires Chain(h) && WorkerCoherent(h, w) && Disciplined(h, id, w) && Exclusive(w.job) && CanStep(w)
    ensures var r := Advance(h, id, w);
            && Disciplined(r.history, id, r.worker)
            && (Holding(r.worker) && !Holding(w) ==> h[|h| - 1].body.state != Processing)
            && Respects(h, r.history, w)
  {
    match |StateWins(w.calls)| {
      case 0 => Unclaimed(h, id, w);
      case 1 => Holder(h, id, w);
      case _ => Releaser(h, id, w);
    }
  }

  /** One step of one worker: it stays orderly, starts to hold only when the document was not in
      Processing, and while the document is in Processing only a holder changes its state. */
  lemma StaysOrderly(h: seq<Version>, id: nat, w: Worker)
    requires Chain(h) && Orderly(h, id, w) && CanStep(w)
    ensures var r := Advance(h, id, w);
            && Chain(r.history) && Orderly(r.history, id, r.worker)
            && (Holding(r.worker) && !Holding(w) ==> h[|h| - 1].body.state != Processing)
            && Respects(h, r.history, w)
  {
    AdvanceKeeps(h, id, w);
    CountedAdvances(h, id, w);
    StaysDisciplined(h, id, w);
  }

  lemma Reports(h: seq<Version>, id: nat, w: Worker, error: Option<string>)
    requires h != [] && WorkerCoherent(h, w) && Disciplined(h, id, w) && Counted(w) && Exclusive(w.job)
    requires w.todo != [] && IsStage(w.todo[0])
    ensures Disciplined(h, id, Reported(w, error)) && Counted(Reported(w, error)) && Reported(w, error).calls == w.calls
  {
    var r := Reported(w, error);
    if error.Some? {
      var ops := FailureOps(w.job, error.value);
      ShapeFrom(ops, 0, 0, Failed);
      assert ops[0..] == ops && ops[1..] == Tail(r);
      assert Stages(ops) == Stages(ops[1..]) == 0;
    }
  }

  lemma OthersStayOrderly(h: seq<Version>, h': seq<Version>, w: Worker, id: nat, other: Worker)
    requires h != [] && Orderly(h, id, other) && Respects(h, h', w) && !(Holding(w) && Holding(other))
    ensures Orderly(h', id, other)
  {
    if h' != h {
      OtherWorker(h, h'[|h|], other);
      OtherStays(h, h'[|h|], id, other);
    }
  }

  lemma HolderMeansProcessing(h: seq<Version>, id: nat, w: Worker)
    requires h != [] && Orderly(h, id, w) && Holding(w)
    ensures h[|h| - 1].body.state == Processing
  {
  }

  /** One worker moves on while all others keep their copies. */
  lemma AllStayOrderly(s: State, t: State, id: nat, w: Worker)
    requires Safe(s) && t.workers == s.workers[id := w] && t.history != [] && Orderly(t.history, id, w)
    requires if id in s.workers then Respects(s.history, t.history, s.workers[id]) else s.history == t.history
    ensures forall i :: i in t.workers ==> Orderly(t.history, i, t.workers[i])
  {
    forall i | i in t.workers && i != id ensures Orderly(t.history, i, t.workers[i]) {
      assert Orderly(s.history, i, s.workers[i]);
      if id in s.workers {
        OthersStayOrderly(s.history, t.history, s.workers[id], i, s.workers[i]);
      }
    }
  }

  lemma OneHolderAfter(workers: map<nat, Worker>, id: nat, w: Worker)
    requires OneHolder(workers)
    requires Holding(w) ==>
               (id in workers && Holding(workers[id])) || (forall j :: j in workers ==> !Holding(workers[j]))
    ensures OneHolder(workers[id := w])
  {
  }

  lemma MoveKeeps(s: State, t: State, id: nat, w: Worker)
    requires Safe(s) && t.workers == s.workers[id := w] && Chain(t.history) && Orderly(t.history, id, w)
    requires if id in s.workers then Respects(s.history, t.history, s.workers[id]) else s.history == t.history
    requires Holding(w) ==>
               (id in s.workers && Holding(s.workers[id])) || s.history[|s.history| - 1].body.state != Processing
    ensures Safe(t)
  {
    AllStayOrderly(s, t, id, w);
    OneHolderAfter(s.workers, id, w);
    HoldersMeanProcessing(t);
  }

  lemma HoldersMeanProcessing(s: State)
    requires s.history != [] && forall i :: i in s.workers ==> Orderly(s.history, i, s.workers[i])
    ensures forall i :: i in s.workers && Holding(s.workers[i]) ==> s.history[|s.history| - 1].body.state == Processing
  {
    forall i | i in s.workers && Holding(s.workers[i]) ensures s.history[|s.history| - 1].body.state == Processing {
      HolderMeansProcessing(s.history, i, s.workers[i]);
    }
  }

  lemma SettleKeeps(s: State, id: nat, r: Result)
    requires Safe(s) && id in s.workers && Chain(r.history) && Orderly(r.history, id, r.worker)
    requires Respects(s.history, r.history, s.workers[id])
    requires Holding(r.worker) && !Holding(s.workers[id]) ==> s.history[|s.history| - 1].body.state != Processing
    ensures Safe(Settle(s, id, r))
  {
    MoveKeeps(s, Settle(s, id, r), id, r.worker);
  }

  lemma StepKeeps(s: State, id: nat)
    requires Safe(s) && Enabled(s, Step(id))
    ensures Safe(Next(s, Step(id)))
  {
    assert Orderly(s.history, id, s.workers[id]);
    StaysOrderly(s.history, id, s.workers[id]);
    SettleKeeps(s, id, Advance(s.history, id, s.workers[id]));
  }

  lemma NewWorkerIsOrderly(h: seq<Version>, id: nat, job: Job)
    requires Chain(h) && Exclusive(job)
    ensures Orderly(h, id, NewWorker(h, job)) && !Holding(NewWorker(h, job))
  {
    NewWorkerIsCoherent(h, job);
  }

  lemma SpawnKeeps(s: State, id: nat, job: Job)
    requires Safe(s) && Enabled(s, Spawn(id, job)) && Exclusive(job)
    ensures Safe(Next(s, Spawn(id, job)))
  {
    NewWorkerIsOrderly(s.history, id, job);
    MoveKeeps(s, Next(s, Spawn(id, job)), id, NewWorker(s.history, job));
  }

  lemma ReportKeeps(s: State, id: nat, error: Option<string>)
    requires Safe(s) && Enabled(s, Report(id, error))
    ensures Safe(Next(s, Report(id, error)))
  {
    assert Orderly(s.history, id, s.workers[id]);
    ReportedKeeps(s.history, s.workers[id], error);
    Reports(s.history, id, s.workers[id], error);
    MoveKeeps(s, Next(s, Report(id, error)), id, Reported(s.workers[id], error));
  }

  lemma NextStaysSafe(s: State, e: Event)
    requires Safe(s) && Enabled(s, e) && !e.Fault? && (e.Spawn? ==> Exclusive(e.job))
    ensures Safe(Next(s, e))
  {
    match e
    case Spawn(id, job) => SpawnKeeps(s, id, job);
    case Step(id) => StepKeeps(s, id);
    case Report(id, error) => ReportKeeps(s, id, error);
  }

  ghost predicate ExclusiveRun(run: seq<Event>) {
    forall e :: e in run && e.Spawn? ==> !e.job.DatasetSplit? && !e.job.DatasetDownload?
  }

  lemma {:induction false} ExecStaysSafe(s: State, run: seq<Event>)
    requires Safe(s) && Legal(s, run) && ExclusiveRun(run) && Exec(s, run).faults == s.faults
    ensures Safe(Exec(s, run))
    decreases |run|
  {
    if run != [] {
      FaultsGrow(Next(s, run[0]), run[1..]);
      NextStaysSafe(s, run[0]);
      ExecStaysSafe(Next(s, run[0]), run[1..]);
    }
  }

  /** With any number of workers and a store that answers only success or 409, at most one
      worker is between its winning claim and its terminal-state write, and the document is in
      Processing throughout. */
  lemma AtMostOneHolder(s: State, run: seq<Event>)
    requires Init(s) && Legal(s, run) && ExclusiveRun(run) && Exec(s, run).faults == 0
    ensures Exclusion(Exec(s, run))
  {
    ExecStaysSafe(s, run);
  }

  function ErrorOf(e: Event, id: nat): Option<string> {
    if e.Report? && e.id == id then e.error else None
  }

  /** The first error that a foreign stage of the worker reports. */
  function FirstError(run: seq<Event>, id: nat): Option<string> {
    if run == [] then None else if ErrorOf(run[0], id).Some? then ErrorOf(run[0], id) else FirstError(run[1..], id)
  }

  lemma AdvanceKeepsFailure(h: seq<Version>, id: nat, w: Worker)
    requires h != [] && CanStep(w)
    ensures Advance(h, id, w).worker.failure == w.failure
  {
  }

  lemma FailureStays(s: State, e: Event, id: nat)
    requires Safe(s) && Enabled(s, e) && !e.Fault? && id in s.workers && id in Next(s, e).workers
    ensures Next(s, e).workers[id].failure ==
              if s.workers[id].failure.Some? then s.workers[id].failure else ErrorOf(e, id)
  {
    var w := s.workers[id];
    assert Orderly(s.history, id, w);
    if e.Step? && e.id == id {
      AdvanceKeepsFailure(s.history, id, w);
    } else if e.Report? && e.id == id {
      NoAttempts(s.history, id, w);
    }
  }

  lemma NoAttempts(h: seq<Version>, id: nat, w: Worker)
    requires h != [] && Orderly(h, id, w) && w.todo != []
    ensures !w.todo[0].Attempt? && (w.failure.Some? ==> !w.todo[0].Work?)
  {
  }

  lemma {:induction false} FailureIsFirstError(s: State, run: seq<Event>, id: nat)
    requires Safe(s) && Legal(s, run) && ExclusiveRun(run) && Exec(s, run).faults == s.faults
             && id in Exec(s, run).workers
    ensures Exec(s, run).workers[id].failure ==
            if id in s.workers && s.workers[id].failure.Some? then s.workers[id].failure else FirstError(run, id)
    decreases |run|
  {
    if run != [] {
      var n := Next(s, run[0]);
      FaultsGrow(n, run[1..]);
      NextStaysSafe(s, run[0]);
      FailureIsFirstError(n, run[1..], id);
      if id in s.workers { FailureStays(s, run[0], id); }
    }
  }

  /** A worker that won its claim and has no operations left stored exactly one terminal state:
      FinishedSuccessfully if and only if every stage succeeded, and otherwise Failed; the error
      of the first failing stage is then in the log of that version or of a later one. */
  lemma TerminalVerdict(s: State, run: seq<Event>, id: nat)
    requires Init(s) && Legal(s, run) && ExclusiveRun(run) && Exec(s, run).faults == 0
    requires id in Exec(s, run).workers
    requires var w := Exec(s, run).workers[id]; w.todo == [] && StateWins(w.calls) != []
    ensures var h, w := Exec(s, run).history, Exec(s, run).workers[id];
            && w.failure == FirstError(run, id)
            && (w.failure.None? <==> w.passed == Stages(Program(w.job)))
            && StateWins(w.calls) == [Processing, if FirstError(run, id).None? then FinishedSuccessfully else Failed]
            && exists t: nat :: OwnVerdict(h, id, w, t) && (Logs(w) ==> LoggedFrom(h, w, t))
  {
    ExecStaysSafe(s, run);
    FailureIsFirstError(s, run, id);
    FinishedOrderly(Exec(s, run).history, id, Exec(s, run).workers[id]);
  }

  lemma FinishedOrderly(h: seq<Version>, id: nat, w: Worker)
    requires h != [] && Orderly(h, id, w) && w.todo == [] && StateWins(w.calls) != []
    ensures StateWins(w.calls) == [Processing, Verdict(w)]
    ensures w.failure.None? <==> w.passed == Stages(Program(w.job))
    ensures exists t: nat :: OwnVerdict(h, id, w, t) && (Logs(w) ==> LoggedFrom(h, w, t))
  {
  }
}
