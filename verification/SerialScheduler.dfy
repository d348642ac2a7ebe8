/** The in-process scheduler: the goroutine that follows the changes feed is its only caller.

    For each entry that passes the filters, ScheduleJob waits until no job is outstanding, creates
    the job, adds one to the wait group and spawns a goroutine for the job's Run, which takes the
    one back when it ends. What the database answers to each Retrieve is part of the events. */
module SerialScheduler {
  import opened Documents
  import opened Text

  datatype DocType = UserDoc | DatafileDoc | DatasetDoc | SolverDoc | TrainingJobDoc | ClassifierDoc | ClassifyJobDoc

  /** The document types that a job can be created for. */
  predicate Processable(t: DocType) {
    t.DatafileDoc? || t.DatasetDoc? || t.TrainingJobDoc? || t.ClassifyJobDoc?
  }

  datatype Change = Change(id: string, deleted: bool)

  /** The filters of processChanges, given the answers to the two Retrieves of the document. */
  predicate Passes(c: Change, x: Answer) {
    !c.deleted && !HasPrefix(c.id, "_user") && x.docType.Some? && Processable(x.docType.value)
          && x.state == Some(Pending)
  }

  /** Whether CreateJob returns a job; it does not look at the processing state again. */
  predicate Creates(docType: Option<DocType>, retrieved: bool) {
    docType.Some? && Processable(docType.value) && retrieved
  }

  datatype Phase = Spawned | Running | Ended

  datatype Mark = Begins(job: nat) | Ends(job: nat)

  /** `feed` is still to be read, `waiting` is the entry whose ScheduleJob is in progress, `outstanding`
      the wait group's counter. `jobs` and `ids` list the spawned goroutines in order, `log` records
      the beginnings and ends of job bodies, `answers` what the database said about each entry read
      so far, and `passed` the entries whose ScheduleJob is over with whether creation succeeded. */
  datatype State = State(feed: seq<Change>, waiting: Option<Change>, outstanding: int, jobs: seq<Phase>,
                         ids: seq<string>, log: seq<Mark>, answers: seq<Answer>, passed: seq<(Change, bool)>)

  datatype Answer = Answer(docType: Option<DocType>, state: Option<ProcessingState>)

  datatype Event =
    | Examine(answer: Answer)
    | Create(docType: Option<DocType>, retrieved: bool)
    | Begin(job: nat)
    | End(job: nat)

  predicate Enabled(s: State, e: Event) {
    match e
    case Examine(_) => s.waiting.None? && s.feed != []
    case Create(_, _) => s.waiting.Some? && s.outstanding == 0
    case Begin(job) => job < |s.jobs| && s.jobs[job].Spawned?
    case End(job) => job < |s.jobs| && s.jobs[job].Running?
  }

  function Next(s: State, e: Event): State
    requires Enabled(s, e)
  {
    match e
    case Examine(answer) =>
      s.(feed := s.feed[1..], answers := s.answers + [answer],
            waiting := if Passes(s.feed[0], answer) then Some(s.feed[0]) else None)
    case Create(docType, retrieved) =>
      var s1 := s.(waiting := None, passed := s.passed + [(s.waiting.value, Creates(docType, retrieved))]);
      if Creates(docType, retrieved) then
        s1.(outstanding := s.outstanding + 1, jobs := s.jobs + [Spawned], ids := s.ids + [s.waiting.value.id])
      else s1
    case Begin(job) => s.(jobs := s.jobs[job := Running], log := s.log + [Begins(job)])
    case End(job) => s.(jobs := s.jobs[job := Ended], log := s.log + [Ends(job)], outstanding := s.outstanding - 1)
  }

  predicate Legal(s: State, run: seq<Event>)
    decreases |run|
  {
    run == [] || (Enabled(s, run[0]) && Legal(Next(s, run[0]), run[1..]))
  }

  function Exec(s: State, run: seq<Event>): State
    requires Legal(s, run)
    decreases |run|
  {
    if run == [] then s else Exec(Next(s, run[0]), run[1..])
  }

  function Start(feed: seq<Change>): State {
    State(feed, None, 0, [], [], [], [], [])
  }

  /** Job bodies 0 .. n - 1, one after the other. */
  function OneByOne(n: nat): seq<Mark> {
    if n == 0 then [] else OneByOne(n - 1) + [Begins(n - 1), Ends(n - 1)]
  }

  /** The ids of the entries whose creation succeeded, in order. */
  function Created(passed: seq<(Change, bool)>): seq<string> {
    if passed == [] then []
    else Created(passed[..|passed| - 1]) + if passed[|passed| - 1].1 then [passed[|passed| - 1].0.id] else []
  }

  /** The entries of the feed that pass the filters, in feed order. */
  function Selected(feed: seq<Change>, answers: seq<Answer>): seq<Change>
    requires |feed| == |answers|
  {
    if feed == [] then []
    else
      var n := |feed| - 1;
      Selected(feed[..n], answers[..n]) + if Passes(feed[n], answers[n]) then [feed[n]] else []
  }

  function Taken(s: State): seq<Change> {
    seq(|s.passed|, i requires 0 <= i < |s.passed| => s.passed[i].0) + if s.waiting.Some? then [s.waiting.value] else []
  }

  predicate Quiet(s: State) {
    s.jobs == [] || s.jobs[|s.jobs| - 1].Ended?
  }

  /** At most the last job is not ended, and the counter says whether it is. */
  ghost predicate Serial(s: State) {
    && |s.jobs| == |s.ids|
    && (forall i :: 0 <= i < |s.jobs| - 1 ==> s.jobs[i].Ended?)
    && (Quiet(s) ==> s.outstanding == 0 && s.log == OneByOne(|s.jobs|))
    && (!Quiet(s) ==> s.outstanding == 1)
    && (!Quiet(s) ==>
          s.log == OneByOne(|s.jobs| - 1) + if s.jobs[|s.jobs| - 1].Running? then [Begins(|s.jobs| - 1)] else [])
  }

  ghost predicate Inv(s: State, feed: seq<Change>) {
    && Serial(s)
    && s.ids == Created(s.passed)
    && |s.feed| <= |feed| && s.feed == feed[|feed| - |s.feed|..]
    && |s.answers| == |feed| - |s.feed|
    && Taken(s) == Selected(feed[..|s.answers|], s.answers)
  }

  lemma CreatedOfAppend(passed: seq<(Change, bool)>, p: (Change, bool))
    ensures Created(passed + [p]) == Created(passed) + if p.1 then [p.0.id] else []
  {
    assert (passed + [p])[..|passed|] == passed;
  }

  lemma SelectedOfAppend(feed: seq<Change>, answers: seq<Answer>, c: Change, x: Answer)
    requires |feed| == |answers|
    ensures Selected(feed + [c], answers + [x]) == Selected(feed, answers) + if Passes(c, x) then [c] else []
  {
    assert (feed + [c])[..|feed|] == feed && (answers + [x])[..|answers|] == answers;
  }

  lemma ExamineKeeps(s: State, e: Event, feed: seq<Change>)
    requires Inv(s, feed) && Enabled(s, e) && e.Examine?
    ensures Inv(Next(s, e), feed)
  {
    var n := |s.answers|;
    var t := Next(s, e);
    assert feed[..n + 1] == feed[..n] + [feed[n]] && s.feed[0] == feed[n];
    SelectedOfAppend(feed[..n], s.answers, feed[n], e.answer);
    assert Taken(t) == Taken(s) + if Passes(feed[n], e.answer) then [feed[n]] else [];
  }

  lemma CreateKeeps(s: State, e: Event, feed: seq<Change>)
    requires Inv(s, feed) && Enabled(s, e) && e.Create?
    ensures Inv(Next(s, e), feed)
  {
    var t := Next(s, e);
    CreatedOfAppend(s.passed, (s.waiting.value, Creates(e.docType, e.retrieved)));
    assert Taken(t) == Taken(s);
    if Creates(e.docType, e.retrieved) { CreateIsSerial(s, e); }
  }

  /** A job is created only when the one before has ended. */
  lemma CreateIsSerial(s: State, e: Event)
    requires Serial(s) && Enabled(s, e) && e.Create? && Creates(e.docType, e.retrieved)
    ensures Serial(Next(s, e))
  {
    var t := Next(s, e);
    assert Quiet(s) && t.jobs[..|s.jobs|] == s.jobs;
  }

  lemma NextKeeps(s: State, e: Event, feed: seq<Change>)
    requires Inv(s, feed) && Enabled(s, e)
    ensures Inv(Next(s, e), feed)
  {
    match e
    case Examine(_) => ExamineKeeps(s, e, feed);
    case Create(_, _) => CreateKeeps(s, e, feed);
    case Begin(_) => assert Taken(Next(s, e)) == Taken(s);
    case End(_) => assert Taken(Next(s, e)) == Taken(s);
  }

  lemma {:induction false} ExecKeeps(s: State, run: seq<Event>, feed: seq<Change>)
    requires Inv(s, feed) && Legal(s, run)
    ensures Inv(Exec(s, run), feed)
    decreases |run|
  {
    if run != [] {
      NextKeeps(s, run[0], feed);
      ExecKeeps(Next(s, run[0]), run[1..], feed);
    }
  }

  lemma Reached(feed: seq<Change>, run: seq<Event>)
    requires Legal(Start(feed), run)
    ensures Inv(Exec(Start(feed), run), feed)
  {
    StartsWell(feed);
    ExecKeeps(Start(feed), run, feed);
  }

  lemma StartsWell(feed: seq<Change>)
    ensures Inv(Start(feed), feed)
  {
    assert Taken(Start(feed)) == [] && feed[..0] == [] && feed[0..] == feed;
  }

  /** The log of job bodies: whole ones one after the other, and at most the beginning of another one. */
  predicate OneAtATime(log: seq<Mark>, n: nat) {
    log == OneByOne(n) || (n > 0 && OneByOne(n - 1) <= log <= OneByOne(n))
  }

  lemma SerialMeans(s: State)
    requires Serial(s)
    ensures 0 <= s.outstanding <= 1 && OneAtATime(s.log, |s.jobs|)
  {
    if !Quiet(s) {
      var n := |s.jobs|;
      assert OneByOne(n) == OneByOne(n - 1) + [Begins(n - 1), Ends(n - 1)];
      assert [Begins(n - 1)] <= [Begins(n - 1), Ends(n - 1)];
    }
  }

  /** In every run the counter is 0 or 1, job bodies never overlap and run one by one, and the jobs
      are those of exactly the feed entries that passed the filters and could be created, in feed
      order; at most one entry is still waiting for its job. */
  lemma JobsRunOneByOne(feed: seq<Change>, run: seq<Event>)
    requires Legal(Start(feed), run)
    ensures var t := Exec(Start(feed), run);
            && 0 <= t.outstanding <= 1 && OneAtATime(t.log, |t.jobs|)
            && t.ids == Created(t.passed) && |t.ids| == |t.jobs|
            && |t.answers| <= |feed| && Taken(t) == Selected(feed[..|t.answers|], t.answers)
  {
    Reached(feed, run);
    SerialMeans(Exec(Start(feed), run));
  }

  /** Something is left to do: entries to read, an entry that waits, or a job that has not ended. */
  predicate Unfinished(s: State) {
    s.feed != [] || s.waiting.Some? || exists i :: 0 <= i < |s.jobs| && !s.jobs[i].Ended?
  }

  lemma ProgressIn(s: State) returns (e: Event)
    requires Serial(s) && Unfinished(s)
    ensures Enabled(s, e)
  {
    var last := |s.jobs| - 1;
    if !Quiet(s) {
      e := if s.jobs[last].Spawned? then Begin(last) else End(last);
    } else if s.waiting.Some? {
      e := Create(None, false);
    } else {
      assert forall i :: 0 <= i <= last ==> s.jobs[i].Ended?;
      e := Examine(Answer(None, None));
    }
  }

  /** As long as something is left to do, some event is possible. */
  lemma Progress(feed: seq<Change>, run: seq<Event>) returns (e: Event)
    requires Legal(Start(feed), run) && Unfinished(Exec(Start(feed), run))
    ensures Enabled(Exec(Start(feed), run), e)
  {
    Reached(feed, run);
    e := ProgressIn(Exec(Start(feed), run));
  }

  function Left(p: Phase): nat {
    match p
    case Spawned => 2
    case Running => 1
    case Ended => 0
  }

  function JobsLeft(jobs: seq<Phase>): nat {
    if jobs == [] then 0 else JobsLeft(jobs[..|jobs| - 1]) + Left(jobs[|jobs| - 1])
  }

  /** What is left to do, in events. */
  function Measure(s: State): nat {
    4 * |s.feed| + (if s.waiting.Some? then 3 else 0) + JobsLeft(s.jobs)
  }

  lemma {:induction false} JobsLeftAfter(jobs: seq<Phase>, job: nat, p: Phase)
    requires job < |jobs|
    ensures JobsLeft(jobs[job := p]) == JobsLeft(jobs) - Left(jobs[job]) + Left(p)
  {
    var n := |jobs| - 1;
    if job < n {
      JobsLeftAfter(jobs[..n], job, p);
      assert jobs[job := p][..n] == jobs[..n][job := p];
    } else {
      assert jobs[job := p][..n] == jobs[..n];
    }
  }

  /** Every event brings the scheduler closer to its end, in whatever order they happen. */
  lemma MeasureDecreases(s: State, e: Event)
    requires Enabled(s, e)
    ensures Measure(Next(s, e)) < Measure(s)
  {
    match e
    case Examine(_) =>
    case Create(docType, retrieved) => assert (s.jobs + [Spawned])[..|s.jobs|] == s.jobs;
    case Begin(job) => JobsLeftAfter(s.jobs, job, Running);
    case End(job) => JobsLeftAfter(s.jobs, job, Ended);
  }

  /** So a run has at most four events for each entry of the feed. */
  lemma {:induction false} RunsAreBounded(s: State, run: seq<Event>)
    requires Legal(s, run)
    ensures |run| + Measure(Exec(s, run)) <= Measure(s)
    decreases |run|
  {
    if run != [] {
      MeasureDecreases(s, run[0]);
      RunsAreBounded(Next(s, run[0]), run[1..]);
    }
  }

  /** A run that cannot go on, and every run comes to that, has examined the whole feed, and for each entry
      that passed the filters its ScheduleJob is over; exactly the jobs that could be created have run, one
      after the other, each to its end. */
  lemma RunsComeToTheirEnd(feed: seq<Change>, run: seq<Event>)
    requires Legal(Start(feed), run) && forall e :: !Enabled(Exec(Start(feed), run), e)
    ensures var t := Exec(Start(feed), run);
            && |run| <= 4 * |feed| && |t.answers| == |feed|
            && |t.passed| == |Selected(feed, t.answers)|
            && (forall i :: 0 <= i < |t.passed| ==> t.passed[i].0 == Selected(feed, t.answers)[i])
            && t.ids == Created(t.passed) && |t.jobs| == |t.ids|
            && (forall i :: 0 <= i < |t.jobs| ==> t.jobs[i].Ended?)
            && t.log == OneByOne(|t.jobs|) && t.outstanding == 0
  {
    Reached(feed, run);
    RunsAreBounded(Start(feed), run);
    EndMeans(Exec(Start(feed), run), feed);
  }

  lemma EndMeans(s: State, feed: seq<Change>)
    requires Inv(s, feed) && forall e :: !Enabled(s, e)
    ensures |s.answers| == |feed| && |s.passed| == |Selected(feed, s.answers)|
    ensures forall i :: 0 <= i < |s.passed| ==> s.passed[i].0 == Selected(feed, s.answers)[i]
    ensures !Unfinished(s) && s.log == OneByOne(|s.jobs|) && s.outstanding == 0
  {
    assert !Unfinished(s) by {
      if Unfinished(s) { var e := ProgressIn(s); }
    }
    assert s.jobs == [] || s.jobs[|s.jobs| - 1].Ended?;
    assert feed[..|feed|] == feed && |Taken(s)| == |s.passed|;
    forall i | 0 <= i < |s.passed| ensures s.passed[i].0 == Selected(feed, s.answers)[i] {
      assert Taken(s)[i] == s.passed[i].0;
    }
  }

  /** A job is created for an entry exactly if its document can be retrieved twice and is of one of the
      four processable types; its state does not matter any more. */
  lemma CreatesAJobIff(s: State, docType: Option<DocType>, retrieved: bool)
    requires Enabled(s, Create(docType, retrieved))
    ensures var t := Next(s, Create(docType, retrieved));
            && t.waiting.None?
            && (if retrieved && (docType == Some(DatafileDoc) || docType == Some(DatasetDoc)
                              || docType == Some(TrainingJobDoc) || docType == Some(ClassifyJobDoc))
                then t.jobs == s.jobs + [Spawned] && t.ids == s.ids + [s.waiting.value.id]
                else t.jobs == s.jobs && t.ids == s.ids)
  {
  }

  /** The changes at these places, which are in feed order and without repetition. */
  ghost predicate PickedAt(picked: seq<Change>, changes: seq<Change>, at: seq<nat>) {
    && |at| == |picked|
    && (forall i, j :: 0 <= i < j < |at| ==> at[i] < at[j])
    && (forall i :: 0 <= i < |at| ==> at[i] < |changes| && picked[i] == changes[at[i]])
  }

  /** The picked changes are exactly those of pending jobs, each once and in feed order. */
  ghost predicate SchedulesPending(picked: seq<Change>, changes: seq<Change>, answers: seq<Answer>)
    requires |changes| == |answers|
  {
    exists at :: PickedAt(picked, changes, at)
      && (forall k :: 0 <= k < |changes| ==> (k in at <==> IsPendingJob(changes[k], answers[k])))
  }

  /** The document is there and is no user document, it is of a type that jobs are made for, and nobody
      has started on it. */
  predicate IsPendingJob(c: Change, x: Answer) {
    && !c.deleted
    && !(|c.id| >= 5 && c.id[..5] == "_user")
    && (x.docType == Some(DatafileDoc) || x.docType == Some(DatasetDoc) || x.docType == Some(TrainingJobDoc)
        || x.docType == Some(ClassifyJobDoc))
    && x.state == Some(Pending)
  }

  lemma PickedNext(picked: seq<Change>, changes: seq<Change>, at: seq<nat>, c: Change)
    requires PickedAt(picked, changes, at)
    ensures PickedAt(picked, changes + [c], at) && PickedAt(picked + [c], changes + [c], at + [|changes|])
  {
  }

  lemma {:induction false} SelectedArePicked(changes: seq<Change>, answers: seq<Answer>) returns (at: seq<nat>)
    requires |changes| == |answers|
    ensures PickedAt(Selected(changes, answers), changes, at)
    ensures forall k :: 0 <= k < |changes| ==> (k in at <==> IsPendingJob(changes[k], answers[k]))
  {
    if changes == [] {
      at := [];
    } else {
      var n := |changes| - 1;
      at := SelectedArePicked(changes[..n], answers[..n]);
      PickedNext(Selected(changes[..n], answers[..n]), changes[..n], at, changes[n]);
      assert changes == changes[..n] + [changes[n]];
      assert n !in at;
      if Passes(changes[n], answers[n]) { at := at + [n]; }
    }
  }
}
