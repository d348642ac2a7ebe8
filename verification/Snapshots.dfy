/** What a worker starts from: the version that is newest when its job is created. */
module Snapshots {
  import opened Documents
  import opened Protocol

  /** The worker has not moved, or found its copy in Processing and stopped. */
  predicate Idle(w: Worker) {
    && IsClaiming(w.job) && w.phase.Between? && w.failure.None?
    && if w.calls == [] then w.todo == Program(w.job) && w.mine.body.state == Processing
       else w.calls == [Call(SetState(Processing), Lost)] && w.todo == []
  }

  /** Every job but the artifact writer starts with a claim. */
  predicate IsClaiming(job: Job) {
    !job.ArtifactWriter?
  }

  ghost predicate NotBy(h: seq<Version>, id: nat) {
    forall k :: 0 <= k < |h| && h[k].author.By? ==> h[k].author.worker != id
  }

  ghost predicate AuthorsAreWorkers(s: State) {
    s.history != []
    && forall k :: 0 <= k < |s.history| && s.history[k].author.By? ==> s.history[k].author.worker in s.workers
  }

  /** Only the mover stores, and only it changes. */
  lemma MoverOnly(s: State, e: Event)
    requires Enabled(s, e)
    ensures forall i :: i in s.workers ==>
                i in Next(s, e).workers && (i != e.id ==> Next(s, e).workers[i] == s.workers[i])
    ensures Next(s, e).history == s.history
            || (e.id in s.workers && exists b: Body, u: Update ::
                  Next(s, e).history == s.history + [Version(b, By(e.id, u))])
  {
    if Appends(s, e) {
      var w := s.workers[e.id];
      assert Next(s, e).history == s.history + [Version(w.local.body, By(e.id, UpdateOf(w.todo[0])))];
    }
  }

  lemma {:induction false} AuthorsStayWorkers(s: State, run: seq<Event>)
    requires AuthorsAreWorkers(s) && Legal(s, run)
    ensures AuthorsAreWorkers(Exec(s, run))
    decreases |run|
  {
    if run != [] {
      MoverOnly(s, run[0]);
      AuthorsStayWorkers(Next(s, run[0]), run[1..]);
    }
  }

  lemma {:induction false} IdlersStayIdle(s: State, run: seq<Event>, id: nat)
    requires Legal(s, run) && NotBy(s.history, id) && id in s.workers && Idle(s.workers[id])
    ensures id in Exec(s, run).workers && Idle(Exec(s, run).workers[id]) && NotBy(Exec(s, run).history, id)
    decreases |run|
  {
    if run != [] {
      MoverOnly(s, run[0]);
      assert Program(s.workers[id].job)[0] == Claim;
      IdlersStayIdle(Next(s, run[0]), run[1..], id);
    }
  }

  /** In every run, with any jobs and any store errors: a job that is created while its document is in
      Processing claims nothing, stores no version and ends without having done anything, however the
      document changes afterwards. */
  lemma CreatedDuringProcessing(start: State, before: seq<Event>, id: nat, job: Job, after: seq<Event>)
    requires Init(start) && Legal(start, before) && Enabled(Exec(start, before), Spawn(id, job)) && IsClaiming(job)
    requires Newest(Exec(start, before).history).body.state == Processing
    requires Legal(Next(Exec(start, before), Spawn(id, job)), after)
    ensures var t := Exec(Next(Exec(start, before), Spawn(id, job)), after);
            && id in t.workers && NotBy(t.history, id)
            && (t.workers[id].calls == [] || t.workers[id].calls == [Call(SetState(Processing), Lost)])
            && (if t.workers[id].calls != [] then t.workers[id].todo == []
                else Enabled(t, Step(id)) && Next(t, Step(id)).workers[id].todo == [])
  {
    AuthorsStayWorkers(start, before);
    IdlersStayIdle(Next(Exec(start, before), Spawn(id, job)), after, id);
    HistoryGrows(Next(Exec(start, before), Spawn(id, job)), after);
    assert Program(job)[0] == Claim;
  }

  /** The steps that a worker takes in a run. */
  function Steps(run: seq<Event>, id: nat): nat {
    if run == [] then 0 else (if run[0] == Step(id) then 1 else 0) + Steps(run[1..], id)
  }

  predicate Stores(s: State, run: seq<Event>)
    requires Legal(s, run)
  {
    Exec(s, run).history != s.history
  }

  /** A worker before its first store request, or with one made on a copy of the newest version. */
  predicate Fresh(h: seq<Version>, w: Worker, steps: nat)
    requires h != []
  {
    w.calls == [] && w.todo == Program(w.job) && w.mine == Newest(h) &&
    match steps
    case 0 => w.phase.Between?
    case 1 => w.phase.Editing? && w.local == Copy(|h| - 1, Apply(SetState(Processing), h[|h| - 1].body))
    case _ => false
  }

  lemma {:induction false} HistoryGrows(s: State, run: seq<Event>)
    requires Legal(s, run)
    ensures s.history <= Exec(s, run).history
    decreases |run|
  {
    if run != [] {
      MoverOnly(s, run[0]);
      HistoryGrows(Next(s, run[0]), run[1..]);
    }
  }

  lemma FreshStep(s: State, e: Event, id: nat, steps: nat)
    requires Enabled(s, e) && id in s.workers && IsClaiming(s.workers[id].job) && Fresh(s.history, s.workers[id], steps)
    requires Newest(s.history).body.state != Processing && Next(s, e).history == s.history && !(e.Fault? && e.id == id)
    ensures id in Next(s, e).workers && Next(s, e).workers[id].job == s.workers[id].job
    ensures Fresh(s.history, Next(s, e).workers[id], steps + if e == Step(id) then 1 else 0)
  {
    assert Program(s.workers[id].job)[0] == Claim;
    MoverOnly(s, e);
  }

  lemma {:induction false} StaysFresh(s: State, run: seq<Event>, id: nat, steps: nat)
    requires Legal(s, run) && id in s.workers && IsClaiming(s.workers[id].job)
    requires s.history != [] && Fresh(s.history, s.workers[id], steps) && Newest(s.history).body.state != Processing
    requires !Stores(s, run) && forall e :: e in run ==> !(e.Fault? && e.id == id)
    ensures id in Exec(s, run).workers && Exec(s, run).workers[id].job == s.workers[id].job
    ensures Fresh(s.history, Exec(s, run).workers[id], steps + Steps(run, id))
    decreases |run|
  {
    if run != [] {
      var n := Next(s, run[0]);
      MoverOnly(s, run[0]);
      HistoryGrows(n, run[1..]);
      assert s.history <= n.history <= s.history;
      assert run[0] in run && forall e :: e in run[1..] ==> e in run;
      FreshStep(s, run[0], id, steps);
      StaysFresh(n, run[1..], id, steps + if run[0] == Step(id) then 1 else 0);
    }
  }

  /** In every run: a job that is created while its document is not in Processing, finished or not, has
      the newest revision. As long as nobody stores a version and the store does not fail it, it takes
      at most one step, and its second one stores the claim, without any conflict. */
  lemma CreatedOutsideProcessing(start: State, before: seq<Event>, id: nat, job: Job, after: seq<Event>)
    requires Init(start) && Legal(start, before) && Enabled(Exec(start, before), Spawn(id, job)) && IsClaiming(job)
    requires Newest(Exec(start, before).history).body.state != Processing
    requires Legal(Next(Exec(start, before), Spawn(id, job)), after)
    requires !Stores(Next(Exec(start, before), Spawn(id, job)), after)
    requires forall e :: e in after ==> !(e.Fault? && e.id == id)
    ensures var s := Exec(start, before);
            var t := Exec(Next(s, Spawn(id, job)), after);
            && Steps(after, id) <= 1 && Enabled(t, Step(id))
            && (Steps(after, id) == 1 ==>
                  && Next(t, Step(id)).workers[id].calls == [Call(SetState(Processing), Won)]
                  && Next(t, Step(id)).history == s.history
                     + [Version(Newest(s.history).body.(state := Processing), By(id, SetState(Processing)))])
  {
    var s := Exec(start, before);
    StaysFresh(Next(s, Spawn(id, job)), after, id, 0);
    assert Program(job)[0] == Claim;
  }

  lemma OneEvent(s: State, e: Event)
    requires Enabled(s, e)
    ensures Legal(s, [e]) && Exec(s, [e]) == Next(s, e)
  {
    var t := Next(s, e);
    assert [e][1..] == [];
    assert Exec(t, []) == t;
  }

  lemma TwoEvents(s: State, e: Event, f: Event)
    requires Enabled(s, e) && Enabled(Next(s, e), f)
    ensures Legal(s, [e, f]) && Exec(s, [e, f]) == Next(Next(s, e), f)
  {
    var t := Next(s, e);
    OneEvent(t, f);
    assert [e, f][0] == e && [e, f][1..] == [f];
  }

  /** The endpoint's own writer goes on with the copy it inserted instead: behind any other version its
      first request is answered with a conflict. */
  lemma WriterOfTheInsertedCopy(start: State, before: seq<Event>, id: nat, training: string, testing: string)
    requires Init(start) && Legal(start, before)
    requires Enabled(Exec(start, before), Spawn(id, ArtifactWriter(training, testing)))
    requires !Done(SetArtifactUrls(training, testing), start.history[0].body)
    ensures var s := Exec(start, before);
            var n := Next(s, Spawn(id, ArtifactWriter(training, testing)));
            Legal(n, [Step(id), Step(id)])
            && (Stores(n, [Step(id), Step(id)]) <==> |s.history| == 1)
  {
    HistoryGrows(start, before);
    var s := Exec(start, before);
    var n := Next(s, Spawn(id, ArtifactWriter(training, testing)));
    assert s.history[0] == start.history[0];
    TwoEvents(n, Step(id), Step(id));
  }
}
