/** The verdict of a dataset download, in every interleaving with any other workers, on a store
    without errors. */
module Downloads {
  import opened Documents
  import opened Protocol
  import opened NoLostUpdates
  import opened Snapshots

  predicate StateBy(v: Version, id: nat) {
    v.author.By? && v.author.worker == id && v.author.update.SetState?
  }

  /** Version t is in state st, and the worker stores no state after it. */
  ghost predicate Settled(h: seq<Version>, id: nat, st: ProcessingState, t: nat) {
    t < |h| && h[t].body.state == st && forall k :: t < k < |h| ==> !StateBy(h[k], id)
  }

  ghost predicate NotFinishedBy(h: seq<Version>, id: nat) {
    forall k :: 0 <= k < |h| ==> h[k].author != By(id, SetState(FinishedSuccessfully))
  }

  /** Downloads and records of failed ones, and FinishedSuccessfully at the end. */
  predicate Finishing(todo: seq<Op>) {
    todo != [] && todo[|todo| - 1] == Put(SetState(FinishedSuccessfully), Fork, Record)
    && forall i :: 0 <= i < |todo| - 1 ==>
         todo[i].Attempt?
         || todo[i] == Put(SetState(Failed), Fork, Skip)
         || (todo[i].Put? && !todo[i].receiver.Pointer? && todo[i].update.SetLog?)
  }

  /** The blob store is opened first, and then nothing stops the run. */
  predicate GoesOn(todo: seq<Op>) {
    todo == Program(DatasetDownload)[1..] || Finishing(todo)
  }

  ghost predicate LoggedFrom(h: seq<Version>, t: nat, message: string) {
    exists k: nat :: t <= k < |h| && h[k].body.log == message
  }

  /** The failure of the run is in the state, and in the log when there is nothing left to do. */
  ghost predicate Recorded(h: seq<Version>, id: nat, w: Worker, message: string) {
    exists t: nat :: Settled(h, id, Failed, t) &&
      if w.todo == [] then LoggedFrom(h, t, message) else w.phase.Between? ==> w.local.body == h[t].body
  }

  ghost predicate Claimed(h: seq<Version>, id: nat, w: Worker) {
    w.mine.body.state == Processing &&
    match w.failure
    case None =>
      if w.todo == [] then exists t: nat :: Settled(h, id, FinishedSuccessfully, t)
      else NotFinishedBy(h, id) && GoesOn(w.todo)
    case Some(message) =>
      NotFinishedBy(h, id) &&
      (w.todo == FailureOps(w.job, message)
       || ((w.todo == [] || w.todo == FailureOps(w.job, message)[1..]) && Recorded(h, id, w, message)))
  }

  predicate Declined(w: Worker) {
    w.calls != [] && w.calls[0].outcome.Lost?
  }

  /** What a download worker has stored and has left to do. */
  ghost predicate Downloading(h: seq<Version>, id: nat, w: Worker) {
    && w.job.DatasetDownload?
    && (!w.phase.Between? ==> AtCall(w) && Done(UpdateOf(w.todo[0]), w.local.body))
    && if w.calls == [] then w.todo == Program(w.job) && w.failure.None? && NotFinishedBy(h, id)
       else if Declined(w) then w.todo == []
       else Claimed(h, id, w)
  }

  lemma ShorterGoesOn(todo: seq<Op>)
    requires GoesOn(todo) && |todo| > 1
    ensures GoesOn(todo[1..])
  {
  }

  lemma ProgramGoesOn()
    ensures GoesOn(Program(DatasetDownload)[1..])
  {
  }

  /** Another worker's version. */
  lemma OtherKeeps(h: seq<Version>, v: Version, id: nat, w: Worker)
    requires Downloading(h, id, w) && (v.author.By? ==> v.author.worker != id)
    ensures Downloading(h + [v], id, w)
  {
    if w.calls != [] && !Declined(w) {
      if w.failure.None? && w.todo == [] {
        var t: nat :| Settled(h, id, FinishedSuccessfully, t);
        assert Settled(h + [v], id, FinishedSuccessfully, t);
      } else if w.failure.Some? && w.todo != FailureOps(w.job, w.failure.value) {
        RecordKeeps(h, v, id, w, w.failure.value);
      }
    }
  }

  /** A version that is not a state of the worker's own. */
  lemma RecordKeeps(h: seq<Version>, v: Version, id: nat, w: Worker, message: string)
    requires Recorded(h, id, w, message) && !StateBy(v, id)
    ensures Recorded(h + [v], id, w, message)
  {
    var t: nat :| Settled(h, id, Failed, t) &&
      if w.todo == [] then LoggedFrom(h, t, message) else w.phase.Between? ==> w.local.body == h[t].body;
    assert Settled(h + [v], id, Failed, t);
    if w.todo == [] {
      var k: nat :| t <= k < |h| && h[k].body.log == message;
      assert (h + [v])[k].body.log == message;
    }
  }

  /** What a call that returns knows: its copy is done, and is the newest version or its own receiver. */
  predicate Returning(h: seq<Version>, id: nat, w: Worker, outcome: Outcome) {
    && h != [] && AtCall(w) && !outcome.Errored?
    && Done(UpdateOf(w.todo[0]), w.local.body)
    && (outcome.Won? ==> h[|h| - 1] == Version(w.local.body, By(id, UpdateOf(w.todo[0]))))
  }

  lemma ClaimReturns(h: seq<Version>, id: nat, w: Worker, outcome: Outcome)
    requires Returning(h, id, w, outcome) && w.job.DatasetDownload?
    requires w.calls == [] && w.todo == Program(w.job) && w.failure.None? && NotFinishedBy(h, id)
    ensures Downloading(h, id, Return(w, outcome))
  {
    ProgramGoesOn();
  }

  lemma StateIsSettled(h: seq<Version>, id: nat, st: ProcessingState)
    requires h != [] && h[|h| - 1].body.state == st
    ensures Settled(h, id, st, |h| - 1)
  {
  }

  lemma GoingReturns(h: seq<Version>, id: nat, w: Worker, outcome: Outcome)
    requires Returning(h, id, w, outcome) && w.job.DatasetDownload? && w.calls != [] && !Declined(w)
    requires w.mine.body.state == Processing && w.failure.None? && GoesOn(w.todo)
    requires UpdateOf(w.todo[0]) != SetState(FinishedSuccessfully) ==> NotFinishedBy(h, id)
    requires outcome.Lost? && UpdateOf(w.todo[0]).SetState? ==>
               w.local.body == h[|h| - 1].body || w.local.body == w.mine.body
    ensures Downloading(h, id, Return(w, outcome))
  {
    var r := Return(w, outcome);
    assert r.calls[0] == w.calls[0];
    if |w.todo| == 1 {
      StateIsSettled(h, id, FinishedSuccessfully);
    } else {
      ShorterGoesOn(w.todo);
    }
  }

  lemma FailureReturns(h: seq<Version>, id: nat, w: Worker, outcome: Outcome)
    requires Returning(h, id, w, outcome) && w.job.DatasetDownload? && w.calls != [] && !Declined(w)
    requires w.mine.body.state == Processing && w.failure.Some? && w.todo == FailureOps(w.job, w.failure.value)
    requires NotFinishedBy(h, id)
    requires outcome.Lost? ==> w.local.body == h[|h| - 1].body || w.local.body == w.mine.body
    ensures Downloading(h, id, Return(w, outcome))
  {
    var r := Return(w, outcome);
    assert r.calls[0] == w.calls[0];
    StateIsSettled(h, id, Failed);
    assert r.local.body == h[|h| - 1].body;
  }

  lemma LogReturns(h: seq<Version>, id: nat, w: Worker, t: nat, outcome: Outcome)
    requires Returning(h, id, w, outcome) && w.job.DatasetDownload? && w.calls != [] && !Declined(w)
    requires w.mine.body.state == Processing && w.failure.Some? && w.todo == FailureOps(w.job, w.failure.value)[1..]
    requires NotFinishedBy(h, id) && Settled(h, id, Failed, t)
    requires outcome.Lost? ==> w.local.body == h[|h| - 1].body || w.local.body == h[t].body
    ensures Downloading(h, id, Return(w, outcome))
  {
    var r := Return(w, outcome);
    assert r.calls[0] == w.calls[0] && r.todo == [];
    assert w.local.body.log == w.failure.value;
    assert h[|h| - 1].body.log == w.failure.value || h[t].body.log == w.failure.value;
    assert LoggedFrom(h, t, w.failure.value);
  }

  /** A step that stores a version. */
  lemma EditKeeps(h: seq<Version>, id: nat, w: Worker)
    requires h != [] && Downloading(h, id, w) && w.phase.Editing? && w.local.rev == |h| - 1
    ensures Downloading(h + [Version(w.local.body, By(id, UpdateOf(w.todo[0])))], id, Return(w, Won))
  {
    var v := Version(w.local.body, By(id, UpdateOf(w.todo[0])));
    if w.calls == [] {
      ClaimReturns(h + [v], id, w, Won);
    } else if w.failure.None? {
      GoingReturns(h + [v], id, w, Won);
    } else if w.todo == FailureOps(w.job, w.failure.value) {
      FailureReturns(h + [v], id, w, Won);
    } else {
      RecordKeeps(h, v, id, w, w.failure.value);
      var t: nat :| Settled(h + [v], id, Failed, t);
      LogReturns(h + [v], id, w, t, Won);
    }
  }

  /** The test of a call on its own copy, or on the newest version. */
  lemma TestKeeps(h: seq<Version>, id: nat, w: Worker, c: Copy)
    requires h != [] && Downloading(h, id, w) && AtCall(w) && !w.phase.Editing?
    requires if w.phase.Refreshing? then c == Newest(h) else c == if Reuses(w.todo[0]) then w.local else w.mine
    ensures Downloading(h, id, TestAndUpdate(w.(local := c)))
  {
    var u, w' := UpdateOf(w.todo[0]), w.(local := c);
    if !Done(u, c.body) {
      ApplyMakesDone(u, c.body);
      assert Downloading(h, id, TestAndUpdate(w'));
    } else if w.calls == [] {
      ClaimReturns(h, id, w', Lost);
    } else if w.failure.None? {
      GoingReturns(h, id, w', Lost);
    } else if w.todo == FailureOps(w.job, w.failure.value) {
      FailureReturns(h, id, w', Lost);
    } else {
      var t: nat :| Settled(h, id, Failed, t) && (w.phase.Between? ==> w.local.body == h[t].body);
      LogReturns(h, id, w', t, Lost);
    }
  }

  lemma StepKeeps(h: seq<Version>, id: nat, w: Worker)
    requires h != [] && Downloading(h, id, w) && CanStep(w)
    ensures Downloading(Advance(h, id, w).history, id, Advance(h, id, w).worker)
  {
    if w.phase.Editing? {
      if w.local.rev == |h| - 1 { EditKeeps(h, id, w); }
    } else {
      TestKeeps(h, id, w, if w.phase.Refreshing? then Newest(h) else if Reuses(w.todo[0]) then w.local else w.mine);
    }
  }

  lemma ReportKeeps(h: seq<Version>, id: nat, w: Worker, error: Option<string>)
    requires h != [] && Downloading(h, id, w) && w.todo != [] && IsStage(w.todo[0])
    ensures Downloading(h, id, Reported(w, error))
  {
    ShorterGoesOn(w.todo);
  }

  /** What is known of worker id in any state of a run without store errors. */
  ghost predicate Watched(s: State, id: nat) {
    AuthorsAreWorkers(s)
    && (id in s.workers && s.workers[id].job.DatasetDownload? ==> Downloading(s.history, id, s.workers[id]))
  }

  lemma NextIsWatched(s: State, e: Event, id: nat)
    requires Watched(s, id) && Enabled(s, e) && !e.Fault?
    ensures Watched(Next(s, e), id)
  {
    var t := Next(s, e);
    MoverOnly(s, e);
    if id in t.workers && t.workers[id].job.DatasetDownload? {
      if e.id != id {
        if t.history != s.history {
          var b: Body, u: Update :| t.history == s.history + [Version(b, By(e.id, u))];
          OtherKeeps(s.history, Version(b, By(e.id, u)), id, s.workers[id]);
        }
      } else if e.Step? {
        StepKeeps(s.history, id, s.workers[id]);
      } else if e.Report? {
        ReportKeeps(s.history, id, s.workers[id], e.error);
      }
    }
  }

  /** The error of the first stage that the worker reports: of opening the blob store. */
  function FirstReport(run: seq<Event>, id: nat): Option<string> {
    if run == [] then None
    else if run[0].Report? && run[0].id == id then run[0].error
    else FirstReport(run[1..], id)
  }

  /** The stage whose error ends the run is over. */
  predicate Opened(w: Worker) {
    Work !in w.todo
  }

  lemma FailureHasNoWork(job: Job, message: string)
    ensures Work !in FailureOps(job, message)
  {
  }

  lemma WorkComesFirst(h: seq<Version>, id: nat, w: Worker)
    requires Downloading(h, id, w) && !Opened(w)
    ensures w.failure == None
    ensures w.todo == if w.calls == [] then Program(w.job) else Program(w.job)[1..]
  {
    FailureHasNoWork(w.job, if w.failure.Some? then w.failure.value else "");
  }

  lemma OpeningReport(h: seq<Version>, id: nat, w: Worker, error: Option<string>)
    requires Downloading(h, id, w) && w.todo != [] && IsStage(w.todo[0])
    ensures Opened(Reported(w, error))
    ensures Reported(w, error).failure == if Opened(w) then w.failure else error
  {
    if Opened(w) {
      assert w.todo[0].Attempt?;
    } else {
      WorkComesFirst(h, id, w);
      assert w.todo[1..] == [Attempt, Attempt, Put(SetState(FinishedSuccessfully), Fork, Record)];
    }
    FailureHasNoWork(w.job, if error.Some? then error.value else "");
  }

  /** A step does the next operation, or the worker stops. */
  lemma StepLeaves(h: seq<Version>, id: nat, w: Worker)
    requires h != [] && CanStep(w)
    ensures var w' := Advance(h, id, w).worker;
            w'.failure == w.failure && (w'.todo == w.todo || w'.todo == w.todo[1..] || w'.todo == [])
  {
  }

  lemma OpeningStep(h: seq<Version>, id: nat, w: Worker)
    requires h != [] && Downloading(h, id, w) && CanStep(w)
    ensures var w' := Advance(h, id, w).worker;
            && w'.failure == w.failure
            && (Opened(w) ==> Opened(w')) && (!Opened(w) && Opened(w') ==> w'.todo == [])
  {
    StepLeaves(h, id, w);
    if !Opened(w) {
      WorkComesFirst(h, id, w);
      assert Program(w.job)[1] == Work && w.todo[1..][0] == w.todo[1];
    }
  }

  lemma {:induction false} IdleReportsNothing(s: State, run: seq<Event>, id: nat)
    requires Legal(s, run) && id in s.workers && s.workers[id].todo == []
    ensures FirstReport(run, id) == None
    decreases |run|
  {
    if run != [] {
      IdleReportsNothing(Next(s, run[0]), run[1..], id);
    }
  }

  lemma {:induction false} DownloadsAreWatched(s: State, run: seq<Event>, id: nat)
    requires Watched(s, id) && Legal(s, run) && Exec(s, run).faults == s.faults
    ensures Watched(Exec(s, run), id)
    decreases |run|
  {
    if run != [] {
      FaultsGrow(Next(s, run[0]), run[1..]);
      NextIsWatched(s, run[0], id);
      DownloadsAreWatched(Next(s, run[0]), run[1..], id);
    }
  }

  lemma {:induction false} JobsStay(s: State, run: seq<Event>, id: nat)
    requires Legal(s, run) && id in s.workers
    ensures id in Exec(s, run).workers && Exec(s, run).workers[id].job == s.workers[id].job
    decreases |run|
  {
    if run != [] { JobsStay(Next(s, run[0]), run[1..], id); }
  }

  lemma OpeningEvent(s: State, e: Event, id: nat)
    requires Watched(s, id) && Enabled(s, e) && !e.Fault? && id in s.workers && s.workers[id].job.DatasetDownload?
    ensures var w, w' := s.workers[id], Next(s, e).workers[id];
            if Opened(w) then Opened(w') && w'.failure == w.failure
            else if e.Report? && e.id == id then Opened(w') && w'.failure == e.error
            else w'.failure == w.failure == None && (Opened(w') ==> w'.todo == [])
  {
    var w := s.workers[id];
    if !Opened(w) { WorkComesFirst(s.history, id, w); }
    if e.id == id && e.Report? {
      OpeningReport(s.history, id, w, e.error);
    } else if e.id == id && e.Step? {
      OpeningStep(s.history, id, w);
    } else {
      assert Next(s, e).workers[id] == w;
    }
  }

  lemma {:induction false} FailureIsFirstReport(s: State, run: seq<Event>, id: nat)
    requires Watched(s, id) && Legal(s, run) && Exec(s, run).faults == s.faults
    requires id in Exec(s, run).workers && Exec(s, run).workers[id].job.DatasetDownload?
    ensures Exec(s, run).workers[id].failure ==
              if id in s.workers && Opened(s.workers[id]) then s.workers[id].failure else FirstReport(run, id)
    decreases |run|
  {
    if run == [] {
      if !Opened(s.workers[id]) { WorkComesFirst(s.history, id, s.workers[id]); }
    } else {
      var n := Next(s, run[0]);
      FaultsGrow(n, run[1..]);
      NextIsWatched(s, run[0], id);
      FailureIsFirstReport(n, run[1..], id);
      if id in s.workers {
        JobsStay(s, run, id);
        OpeningEvent(s, run[0], id);
        if n.workers[id].todo == [] { IdleReportsNothing(n, run[1..], id); }
      } else if id in n.workers {
        JobsStay(n, run[1..], id);
        assert Program(DatasetDownload)[1] == Work;
      }
    }
  }

  /** Behind version t the download stores no state any more, and t has the verdict. */
  ghost predicate EndedAt(h: seq<Version>, id: nat, error: Option<string>, t: nat) {
    match error
    case None => Settled(h, id, FinishedSuccessfully, t)
    case Some(message) => Settled(h, id, Failed, t) && LoggedFrom(h, t, message)
  }

  /** In every interleaving with any other workers, a download that claimed its dataset and has nothing
      left to do failed exactly if the blob store could not be opened. Then it stored no
      FinishedSuccessfully, and the dataset was Failed, with the error logged, when it stored its last
      state; otherwise, whatever its two downloads did and although their errors are recorded as Failed,
      the dataset was FinishedSuccessfully then. */
  lemma DownloadEndsFailedIff(s: State, run: seq<Event>, id: nat)
    requires Init(s) && Legal(s, run) && Exec(s, run).faults == 0 && id in Exec(s, run).workers
    requires var w := Exec(s, run).workers[id];
             w.job.DatasetDownload? && w.todo == [] && w.calls != [] && !w.calls[0].outcome.Lost?
    ensures var h, error := Exec(s, run).history, FirstReport(run, id);
            && (exists t: nat :: EndedAt(h, id, error, t))
            && (error.Some? ==> NotFinishedBy(h, id))
  {
    DownloadsAreWatched(s, run, id);
    FailureIsFirstReport(s, run, id);
    var h, w := Exec(s, run).history, Exec(s, run).workers[id];
    if w.failure.Some? {
      assert FailureOps(w.job, w.failure.value)[0] == Put(SetState(Failed), Fork, Skip);
      assert FailureOps(w.job, w.failure.value)[1..] != [];
      var t: nat :| Settled(h, id, Failed, t) && LoggedFrom(h, t, w.failure.value);
      assert EndedAt(h, id, w.failure, t);
    } else {
      var t: nat :| Settled(h, id, FinishedSuccessfully, t);
      assert EndedAt(h, id, None, t);
    }
  }
}
