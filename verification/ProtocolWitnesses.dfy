/** A call that runs alone, and runs that show where the protocol's guarantees end. */
module ProtocolWitnesses {
  import opened Documents
  import opened Protocol
  import opened NoLostUpdates
  import opened NonOverlap
  import opened Overwrites

  /** A document is inserted; nobody works on it yet. */
  function Insert(b: Body): (s: State)
    ensures Init(s) && s.history == [Version(b, Inserted)]
  {
    State([Version(b, Inserted)], map[], [], 0)
  }

  /** The set `reach` contains every state that an allowed event leads to from one of its states. */
  ghost predicate Closed(reach: State -> bool, allowed: Event -> bool) {
    forall t: State, e: Event :: reach(t) && Enabled(t, e) && allowed(e) ==> reach(Next(t, e))
  }

  lemma Do(reach: State -> bool, allowed: Event -> bool, t: State, e: Event) returns (t': State)
    requires Closed(reach, allowed) && reach(t) && Enabled(t, e) && allowed(e)
    ensures t' == Next(t, e) && reach(t')
  {
    t' := Next(t, e);
  }

  function StartCopy(w: Worker): Copy
    requires AtCall(w)
  {
    if ReceiverOf(w.todo[0]).SameFork? then w.local else w.mine
  }

  /** How a call ends when no other worker moves during it: it returns false if the copy it starts
      from, or the newest version it then fetches, passes the done test, and else it stores. */
  function AloneResult(h: seq<Version>, id: nat, w: Worker): Result
    requires h != [] && AtCall(w)
  {
    var u, c := UpdateOf(w.todo[0]), StartCopy(w);
    if Done(u, c.body) then Result(h, Return(w.(local := c), Lost))
    else if c.rev != |h| - 1 && Done(u, Newest(h).body) then Result(h, Return(w.(local := Newest(h)), Lost))
    else
      var b := Apply(u, if c.rev == |h| - 1 then c.body else Newest(h).body);
      Result(h + [Version(b, By(id, u))], Return(w.(local := Copy(|h| - 1, b)), Won))
  }

  lemma SettleTwice(s: State, id: nat, r: Result, q: Result)
    requires id in s.workers && r.worker.calls == s.workers[id].calls
    ensures Settle(Settle(s, id, r), id, q) == Settle(s, id, q)
  {
    assert s.workers[id := r.worker][id := q.worker] == s.workers[id := q.worker];
  }

  lemma {:induction false} Then(s: State, run: seq<Event>, e: Event) returns (longer: seq<Event>)
    requires Legal(s, run) && Enabled(Exec(s, run), e)
    ensures longer == run + [e] && Legal(s, longer) && Exec(s, longer) == Next(Exec(s, run), e)
    decreases |run|
  {
    longer := run + [e];
    if run == [] {
      assert longer == [e] && [e][1..] == [];
    } else {
      assert longer[1..] == run[1..] + [e];
      var rest := Then(Next(s, run[0]), run[1..], e);
    }
  }

  /** The steps of a call that no other worker interrupts, and what they lead to: one step if the
      worker's copy is done, two if it is the newest, and otherwise three or four. */
  lemma AloneRun(s: State, id: nat) returns (run: seq<Event>)
    requires s.history != [] && id in s.workers && AtCall(s.workers[id]) && s.workers[id].phase.Between?
    requires StartCopy(s.workers[id]).rev < |s.history|
    ensures forall e :: e in run ==> e == Step(id)
    ensures var u, c := UpdateOf(s.workers[id].todo[0]), StartCopy(s.workers[id]);
            |run| == if Done(u, c.body) then 1 else if c.rev == |s.history| - 1 then 2
                     else if Done(u, Newest(s.history).body) then 3 else 4
    ensures Legal(s, run) && Exec(s, run) == Settle(s, id, AloneResult(s.history, id, s.workers[id]))
  {
    var h, w := s.history, s.workers[id];
    var u, c := UpdateOf(w.todo[0]), StartCopy(w);
    var w1 := w.(local := c.(body := Apply(u, c.body)), phase := Editing);
    var w2 := w1.(phase := Refreshing);
    var w3 := TestAndUpdate(w2.(local := Newest(h)));
    run := [];
    run := Then(s, run, Step(id));
    if !Done(u, c.body) {
      assert Exec(s, run) == Settle(s, id, Result(h, w1));
      run := Then(s, run, Step(id));
      if c.rev == |h| - 1 {
        SettleTwice(s, id, Result(h, w1), Advance(h, id, w1));
      } else {
        SettleTwice(s, id, Result(h, w1), Result(h, w2));
        assert Exec(s, run) == Settle(s, id, Result(h, w2));
        run := Then(s, run, Step(id));
        SettleTwice(s, id, Result(h, w2), Result(h, w3));
        if !Done(u, Newest(h).body) {
          assert Exec(s, run) == Settle(s, id, Result(h, w3));
          run := Then(s, run, Step(id));
          SettleTwice(s, id, Result(h, w3), Advance(h, id, w3));
        }
      }
    }
  }

  lemma {:induction false} Follow(reach: State -> bool, allowed: Event -> bool, s: State, run: seq<Event>)
    requires Closed(reach, allowed) && reach(s) && Legal(s, run) && forall e :: e in run ==> allowed(e)
    ensures reach(Exec(s, run))
    decreases |run|
  {
    if run != [] {
      assert allowed(run[0]) && forall e :: e in run[1..] ==> e in run;
      Follow(reach, allowed, Next(s, run[0]), run[1..]);
    }
  }

  lemma CallAlone(reach: State -> bool, allowed: Event -> bool, s: State, id: nat) returns (t: State)
    requires Closed(reach, allowed) && reach(s) && allowed(Step(id))
    requires s.history != [] && id in s.workers && AtCall(s.workers[id]) && s.workers[id].phase.Between?
    requires StartCopy(s.workers[id]).rev < |s.history|
    ensures reach(t) && t == Settle(s, id, AloneResult(s.history, id, s.workers[id]))
  {
    var run := AloneRun(s, id);
    Follow(reach, allowed, s, run);
    t := Exec(s, run);
  }

  /** The next n stages of a worker succeed one after the other. */
  lemma {:induction false} StagesPass(reach: State -> bool, allowed: Event -> bool, s: State, id: nat, n: nat)
    returns (t: State)
    requires Closed(reach, allowed) && reach(s) && allowed(Report(id, None)) && s.history != []
    requires id in s.workers && n <= |s.workers[id].todo| && forall i :: 0 <= i < n ==> s.workers[id].todo[i].Work?
    ensures reach(t) && t == s.(workers := s.workers[id := s.workers[id].(todo := s.workers[id].todo[n..],
              passed := s.workers[id].passed + n)])
    decreases n
  {
    var w := s.workers[id];
    if n == 0 {
      t := s;
      assert w.todo[0..] == w.todo && s.workers[id := w] == s.workers;
    } else {
      var u := Do(reach, allowed, s, Report(id, None));
      var w1 := w.(todo := w.todo[1..], passed := w.passed + 1);
      assert u == s.(workers := s.workers[id := w1]);
      t := StagesPass(reach, allowed, u, id, n - 1);
      assert w1.todo[n - 1..] == w.todo[n..];
      assert s.workers[id := w1][id := t.workers[id]] == s.workers[id := t.workers[id]];
    }
  }

  /** Some run of allowed events leads from s to t. */
  ghost predicate Reachable(s: State, allowed: Event -> bool, t: State) {
    exists run: seq<Event> :: Legal(s, run) && (forall e :: e in run ==> allowed(e)) && Exec(s, run) == t
  }

  lemma ReachableIsClosed(s: State, allowed: Event -> bool)
    ensures Reachable(s, allowed, s) && Closed(t => Reachable(s, allowed, t), allowed)
  {
    assert Legal(s, []) && Exec(s, []) == s;
    forall t: State, e: Event | Reachable(s, allowed, t) && Enabled(t, e) && allowed(e)
      ensures Reachable(s, allowed, Next(t, e)) {
      var run: seq<Event> :| Legal(s, run) && (forall f :: f in run ==> allowed(f)) && Exec(s, run) == t;
      var longer := Then(s, run, e);
      assert forall f :: f in longer ==> allowed(f);
    }
  }

  predicate NoFault(e: Event) {
    !e.Fault?
  }

  predicate ExclusiveJobs(e: Event) {
    e.Spawn? ==> Exclusive(e.job)
  }

  predicate Ordinary(e: Event) {
    NoFault(e) && ExclusiveJobs(e)
  }

  lemma FinishedJobRunsAgainFrom(reach: State -> bool, s: State) returns (t: State)
    requires Closed(reach, Ordinary) && reach(s) && Init(s) && s.history[0].body.state == Pending
    ensures reach(t)
    ensures t.faults == 0
    ensures 0 in t.workers && 1 in t.workers
            && StateWins(t.workers[0].calls) == [Processing, FinishedSuccessfully]
            && StateWins(t.workers[1].calls) == [Processing]
  {
    var job, b := Datafile("u"), s.history[0].body;
    var claimed := [Call(SetState(Processing), Won)];
    var ready := Worker(job, Copy(0, b), Copy(0, b), Program(job), Between, 0, None, []);
    t := Do(reach, Ordinary, s, Spawn(0, job));
    t := Do(reach, Ordinary, t, Spawn(1, job));
    assert t.workers == map[0 := ready, 1 := ready] && |t.history| == 1;
    t := CallAlone(reach, Ordinary, t, 0);
    var c := Copy(0, b.(state := Processing));
    assert t.workers[0] == Worker(job, c, c, Program(job)[1..], Between, 0, None, claimed);
    t := StagesPass(reach, Ordinary, t, 0, 2);
    assert t.workers[0] == Worker(job, c, c, Program(job)[3..], Between, 2, None, claimed);
    t := DatafileEnds(reach, t, b.(state := Processing));
    assert t.workers[1] == ready && |t.history| == 3;
    t := CallAlone(reach, Ordinary, t, 1);
    assert t.workers[1].calls == [Call(SetState(Processing), Won)];
    WinsOfCall([], Call(SetState(Processing), Won));
  }

  lemma DatafileEnds(reach: State -> bool, s: State, b: Body) returns (t: State)
    requires Closed(reach, Ordinary) && reach(s) && |s.history| == 2 && s.history[1].body.state == Processing
             && s.faults == 0
    requires 0 in s.workers && s.workers[0] ==
             Worker(Datafile("u"), Copy(0, b), Copy(0, b), Program(Datafile("u"))[3..], Between, 2, None,
                                                     [Call(SetState(Processing), Won)]) && b.state == Processing
    ensures reach(t) && t.faults == 0 && |t.history| == 3 && t.history[2].body.state == FinishedSuccessfully
    ensures 0 in t.workers && t.workers == s.workers[0 := t.workers[0]]
    ensures StateWins(t.workers[0].calls) == [Processing, FinishedSuccessfully]
  {
    t := Do(reach, Ordinary, s, Step(0));
    var w1 := s.workers[0].(mine := Copy(0, Assigned(SourceUrl("u"), b)),
          todo := [Put(SetState(FinishedSuccessfully), Fork, Record)]);
    assert t.workers == s.workers[0 := w1];
    t := CallAlone(reach, Ordinary, t, 0);
    assert s.workers[0 := w1][0 := t.workers[0]] == s.workers[0 := t.workers[0]];
    WinsOfCall([Call(SetState(Processing), Won)], Call(SetState(FinishedSuccessfully), Won));
    WinsOfCall([], Call(SetState(Processing), Won));
  }

  /** Execution is not at-most-once: a worker whose snapshot is older than a whole finished run
      claims the finished document again. */
  lemma FinishedJobRunsAgain(s: State) returns (t: State)
    requires Init(s) && s.history[0].body.state == Pending
    ensures Reachable(s, Ordinary, t)
    ensures t.faults == 0
    ensures 0 in t.workers && 1 in t.workers
            && StateWins(t.workers[0].calls) == [Processing, FinishedSuccessfully]
            && StateWins(t.workers[1].calls) == [Processing]
  {
    ReachableIsClosed(s, Ordinary);
    t := FinishedJobRunsAgainFrom(t' => Reachable(s, Ordinary, t'), s);
  }

  lemma SplitterOverwritesLaterClaimFrom(reach: State -> bool, s: State) returns (t: State)
    requires Closed(reach, NoFault) && reach(s) && Init(s) && s.history[0].body.state == Pending
    ensures reach(t)
    ensures t.faults == 0
    ensures !Exclusion(t)
  {
    var b, job := s.history[0].body, DatasetSplit;
    var ready := Worker(job, Copy(0, b), Copy(0, b), Program(job), Between, 0, None, []);
    var c := Copy(0, b.(state := Processing));
    var claimed := [Call(SetState(Processing), Won)];
    t := Do(reach, NoFault, s, Spawn(0, job));
    t := Do(reach, NoFault, t, Spawn(1, job));
    assert t.workers == map[0 := ready, 1 := ready] && t.history == s.history;
    t := CallAlone(reach, NoFault, t, 0);
    assert t.workers[0] == Worker(job, c, c, Program(job)[1..], Between, 0, None, claimed);
    t := StagesPass(reach, NoFault, t, 0, 4);
    assert t.workers[0] == Worker(job, c, c, Program(job)[5..], Between, 4, None, claimed);
    assert t.workers[1] == ready && |t.history| == 2 && t.history[1].body == c.body;
    t := SecondFinishOverwrites(reach, t, c.body, ready);
  }

  lemma SecondFinishOverwrites(reach: State -> bool, s: State, b: Body, ready: Worker) returns (t: State)
    requires Closed(reach, NoFault) && reach(s) && |s.history| == 2 && s.history[1].body == b
             && b.state == Processing && s.faults == 0
    requires 0 in s.workers && s.workers[0].mine == Copy(0, b) && s.workers[0].phase.Between?
             && s.workers[0].todo == Program(DatasetSplit)[5..]
    requires 1 in s.workers && s.workers[1] == ready && ready.phase.Between? && ready.mine.rev == 0
             && ready.mine.body.state == Pending
    requires ready.todo == Program(DatasetSplit) && ready.calls == []
    ensures reach(t) && t.faults == 0 && !Exclusion(t)
  {
    var finish := SetState(FinishedSuccessfully);
    var rest := [Put(finish, Fork, Record)];
    assert Program(DatasetSplit)[5..] == [Put(finish, Fork, Skip)] + rest;
    t := FinishAlone(reach, s, b);
    assert t.workers[1] == ready && t.workers[0].todo == rest;
    var h := t.history;
    t := ClaimAlone(reach, t, ready);
    assert t.workers[0].mine == Copy(0, b) && t.workers[0].todo == rest && t.workers[0].phase.Between?;
    t := FinishAlone(reach, t, b);
    OneWin(t.workers[1]);
  }

  /** A worker with an old copy marks a document finished whose newest version is not. */
  lemma FinishAlone(reach: State -> bool, s: State, b: Body) returns (t: State)
    requires Closed(reach, NoFault) && reach(s) && |s.history| >= 2
    requires Newest(s.history).body.state != FinishedSuccessfully && b.state != FinishedSuccessfully
    requires 0 in s.workers && s.workers[0].mine == Copy(0, b) && s.workers[0].phase.Between? && AtCall(s.workers[0])
    requires s.workers[0].todo[0].Put? && s.workers[0].todo[0].update == SetState(FinishedSuccessfully)
             && s.workers[0].todo[0].receiver == Fork
    ensures reach(t) && t.faults == s.faults
    ensures |t.history| == |s.history| + 1 && t.history[..|s.history|] == s.history
    ensures Newest(t.history).body == Newest(s.history).body.(state := FinishedSuccessfully)
    ensures 0 in t.workers && t.workers == s.workers[0 := t.workers[0]]
    ensures t.workers[0].mine == Copy(0, b) && t.workers[0].phase.Between?
              && t.workers[0].todo == s.workers[0].todo[1..]
  {
    t := CallAlone(reach, NoFault, s, 0);
  }

  /** A worker with an old pending copy claims a document that is not Processing. */
  lemma ClaimAlone(reach: State -> bool, s: State, ready: Worker) returns (t: State)
    requires Closed(reach, NoFault) && reach(s) && s.history != [] && Newest(s.history).body.state != Processing
    requires 1 in s.workers && s.workers[1] == ready && ready.phase.Between? && ready.mine.rev < |s.history|
             && ready.mine.body.state == Pending
    requires AtCall(ready) && ready.todo[0].Claim? && ready.calls == []
    ensures reach(t) && t.faults == s.faults && |t.history| == |s.history| + 1
              && Newest(t.history).body.state == Processing
    ensures 1 in t.workers && t.workers == s.workers[1 := t.workers[1]]
    ensures t.workers[1].calls == [Call(SetState(Processing), Won)]
  {
    t := CallAlone(reach, NoFault, s, 1);
  }

  lemma OneWin(w: Worker)
    requires w.calls == [Call(SetState(Processing), Won)]
    ensures Holding(w)
  {
    WinsOfCall([], Call(SetState(Processing), Won));
  }

  /** The splitter marks its dataset finished twice; the second call can take the document out of
      Processing under a worker that claimed it in between. */
  lemma SplitterOverwritesLaterClaim(s: State) returns (t: State)
    requires Init(s) && s.history[0].body.state == Pending
    ensures Reachable(s, NoFault, t)
    ensures t.faults == 0
    ensures !Exclusion(t)
  {
    ReachableIsClosed(s, NoFault);
    t := SplitterOverwritesLaterClaimFrom(t' => Reachable(s, NoFault, t'), s);
  }

  ghost predicate SomebodyHolds(s: State) {
    exists i :: i in s.workers && Holding(s.workers[i])
  }

  /** Exactly when a step of the splitter's second finish breaks exclusion: if it is the Edit, the
      splitter's copy is the newest one, and some worker holds the dataset. */
  lemma SecondFinishBreaksExclusionIff(start: State, run: seq<Event>, id: nat)
    requires Init(start) && Legal(start, run) && Exclusion(Exec(start, run)) && Enabled(Exec(start, run), Step(id))
    requires var w := Exec(start, run).workers[id];
             !Holding(w) && w.todo == [Put(SetState(FinishedSuccessfully), Fork, Record)]
    ensures var s := Exec(start, run);
            var w := s.workers[id];
            Exclusion(Next(s, Step(id))) <==>
              !(w.phase.Editing? && w.local.rev == |s.history| - 1 && SomebodyHolds(s))
  {
    RunsAreTame(start, run);
    VerdictEditIff(Exec(start, run), id);
  }

  /** The same for the failure that is recorded after a claim ended in a store error. */
  lemma ErroredClaimBreaksExclusionIff(start: State, run: seq<Event>, id: nat)
    requires Init(start) && Legal(start, run) && Exclusion(Exec(start, run)) && Enabled(Exec(start, run), Step(id))
    requires var w := Exec(start, run).workers[id];
             StateWins(w.calls) == [] && w.todo == FailureOps(w.job, STORE_ERROR)
    ensures var s := Exec(start, run);
            var w := s.workers[id];
            Exclusion(Next(s, Step(id))) <==>
              !(w.phase.Editing? && w.local.rev == |s.history| - 1 && SomebodyHolds(s))
  {
    RunsAreTame(start, run);
    VerdictEditIff(Exec(start, run), id);
  }

  lemma VerdictEditIff(s: State, id: nat)
    requires AllTame(s) && Exclusion(s) && Enabled(s, Step(id)) && !Holding(s.workers[id])
    requires IsVerdict(s.workers[id].todo[0]) && s.workers[id].todo[0].update.state != Processing
    ensures var w := s.workers[id];
            Exclusion(Next(s, Step(id))) <==>
              !(w.phase.Editing? && w.local.rev == |s.history| - 1 && SomebodyHolds(s))
  {
    ExclusionStepIff(s, Step(id));
    var holders := Holders(s.workers);
    assert holders - {id} == holders;
    if i :| i in s.workers && Holding(s.workers[i]) { assert i in holders; }
  }

  lemma FailedDownloadIsFinishedFrom(reach: State -> bool, s: State) returns (t: State)
    requires Closed(reach, NoFault) && reach(s) && Init(s) && s.history[0].body.state == Pending
    ensures reach(t)
    ensures t.faults == 0
    ensures 0 in t.workers && t.workers[0].todo == []
            && |t.history| > 3 && t.history[2].body.state == Failed
            && Newest(t.history).body.state == FinishedSuccessfully && Newest(t.history).body.log == "404"
  {
    t := Do(reach, NoFault, s, Spawn(0, DatasetDownload));
    t := DownloadFails(reach, t, s.history[0].body);
    t := RestOfDownload(reach, t, s.history[0].body.(state := Processing));
  }

  /** A download job claims its dataset, fails its first download and records that. */
  lemma DownloadFails(reach: State -> bool, s: State, b: Body) returns (t: State)
    requires Closed(reach, NoFault) && reach(s) && s.faults == 0
    requires |s.history| == 1 && s.history[0].body == b && b.state == Pending
    requires 0 in s.workers && s.workers[0] == NewWorker(s.history, DatasetDownload)
    ensures reach(t) && t.faults == 0 && 3 <= |t.history| <= 4 && t.history[2].body.state == Failed
    ensures Newest(t.history).body == b.(state := Failed, log := "404")
    ensures 0 in t.workers && t.workers == s.workers[0 := t.workers[0]]
    ensures t.workers[0].phase.Between? && t.workers[0].mine == Copy(0, b.(state := Processing))
            && t.workers[0].todo == Program(DatasetDownload)[3..]
  {
    t := CallAlone(reach, NoFault, s, 0);
    t := StagesPass(reach, NoFault, t, 0, 1);
    var mine := Copy(0, b.(state := Processing));
    var calls := t.workers[0].calls;
    assert t.workers[0] == Worker(DatasetDownload, mine, mine, Program(DatasetDownload)[2..], Between, 1, None, calls);
    t := Do(reach, NoFault, t, Report(0, Some("404")));
    assert t.workers[0] == Worker(DatasetDownload, mine, mine, FailureOps(DatasetDownload, "404")
          + Program(DatasetDownload)[3..], Between, 1, None, calls);
    t := FailureIsRecorded(reach, t, b.(state := Processing));
  }

  lemma RestOfDownload(reach: State -> bool, s: State, b: Body) returns (t: State)
    requires Closed(reach, NoFault) && reach(s) && |s.history| >= 3
    requires Newest(s.history).body.state != FinishedSuccessfully && b.state == Processing
    requires 0 in s.workers && s.workers[0].phase.Between? && s.workers[0].mine == Copy(0, b)
             && s.workers[0].todo == Program(DatasetDownload)[3..]
    ensures reach(t) && t.faults == s.faults
    ensures |t.history| == |s.history| + 1 && t.history[..|s.history|] == s.history
    ensures Newest(t.history).body == Newest(s.history).body.(state := FinishedSuccessfully)
    ensures 0 in t.workers && t.workers == s.workers[0 := t.workers[0]] && t.workers[0].todo == []
  {
    var finish := [Put(SetState(FinishedSuccessfully), Fork, Record)];
    assert Program(DatasetDownload)[3..] == [Attempt] + finish;
    t := Do(reach, NoFault, s, Report(0, None));
    assert t.workers[0].todo == finish && t.history == s.history && t.workers == s.workers[0 := t.workers[0]];
    t := FinishAlone(reach, t, b);
  }

  lemma FailureIsRecorded(reach: State -> bool, s: State, b: Body) returns (t: State)
    requires Closed(reach, NoFault) && reach(s) && |s.history| == 2 && s.history[1].body == b && s.faults == 0
             && b.state == Processing
    requires 0 in s.workers && s.workers[0].phase.Between? && s.workers[0].mine == Copy(0, b)
    requires s.workers[0].todo == FailureOps(DatasetDownload, "404") + Program(DatasetDownload)[3..]
    ensures reach(t) && t.faults == 0 && 3 <= |t.history| <= 4 && t.history[2].body.state == Failed
    ensures t.history[|t.history| - 1].body == b.(state := Failed, log := "404")
    ensures 0 in t.workers && t.workers == s.workers[0 := t.workers[0]]
    ensures t.workers[0].phase.Between? && t.workers[0].mine == Copy(0, b)
            && t.workers[0].todo == Program(DatasetDownload)[3..]
  {
    t := CallAlone(reach, NoFault, s, 0);
    assert t.workers[0].local == Copy(1, b.(state := Failed)) && t.workers == s.workers[0 := t.workers[0]];
    t := CallAlone(reach, NoFault, t, 0);
  }

  /** A failed download does not stay Failed: the run goes on and marks the dataset finished. */
  lemma FailedDownloadIsFinished(s: State) returns (t: State)
    requires Init(s) && s.history[0].body.state == Pending
    ensures Reachable(s, NoFault, t)
    ensures t.faults == 0
    ensures 0 in t.workers && t.workers[0].todo == []
            && |t.history| > 3 && t.history[2].body.state == Failed
            && Newest(t.history).body.state == FinishedSuccessfully && Newest(t.history).body.log == "404"
  {
    ReachableIsClosed(s, NoFault);
    t := FailedDownloadIsFinishedFrom(t' => Reachable(s, NoFault, t'), s);
  }

  lemma DownloadOverwritesLaterClaimFrom(reach: State -> bool, s: State) returns (t: State)
    requires Closed(reach, NoFault) && reach(s) && Init(s) && s.history[0].body.state == Pending
    ensures reach(t) && t.faults == 0 && !Exclusion(t)
  {
    var ready := NewWorker(s.history, DatasetDownload);
    t := Do(reach, NoFault, s, Spawn(0, DatasetDownload));
    t := Do(reach, NoFault, t, Spawn(1, DatasetDownload));
    assert t.workers == map[0 := ready, 1 := ready] && t.history == s.history;
    t := DownloadFails(reach, t, s.history[0].body);
    assert t.workers[1] == ready;
    var w := t.workers[0];
    t := ClaimAlone(reach, t, ready);
    assert t.workers[0] == w;
    var holder := t.workers[1];
    t := RestOfDownload(reach, t, s.history[0].body.(state := Processing));
    assert t.workers[1] == holder;
    OneWin(holder);
  }

  /** A download job that recorded a failure lets go of the dataset, and later finishes it under a
      worker that claimed it in between. */
  lemma DownloadOverwritesLaterClaim(s: State) returns (t: State)
    requires Init(s) && s.history[0].body.state == Pending
    ensures Reachable(s, NoFault, t)
    ensures t.faults == 0 && !Exclusion(t)
  {
    ReachableIsClosed(s, NoFault);
    t := DownloadOverwritesLaterClaimFrom(t' => Reachable(s, NoFault, t'), s);
  }

  lemma StoreErrorOnClaimBreaksExclusionFrom(reach: State -> bool, s: State) returns (t: State)
    requires Closed(reach, ExclusiveJobs) && reach(s) && Init(s) && s.history[0].body.state == Pending
    ensures reach(t)
    ensures t.faults == 1
    ensures !Exclusion(t)
  {
    var job := Datafile("u");
    t := Do(reach, ExclusiveJobs, s, Spawn(0, job));
    t := Do(reach, ExclusiveJobs, t, Spawn(1, job));
    t := CallAlone(reach, ExclusiveJobs, t, 0);
    assert t.workers[0].calls == [Call(SetState(Processing), Won)] && |t.history| == 2;
    var holder := t.workers[0];
    t := LoserFails(reach, t, t.workers[1]);
    assert t.workers[0] == holder;
    OneWin(holder);
  }

  /** A claim that ends in a store error goes on to write Failed over whatever is stored. */
  lemma LoserFails(reach: State -> bool, s: State, ready: Worker) returns (t: State)
    requires Closed(reach, ExclusiveJobs) && reach(s) && |s.history| == 2 && s.history[1].body.state == Processing
    requires 1 in s.workers && s.workers[1] == ready && ready.phase.Between? && ready.mine.rev == 0
             && ready.mine.body.state == Pending
    requires ready.job == Datafile("u") && ready.todo == Program(ready.job)
    ensures reach(t) && t.faults == s.faults + 1 && t.history != [] && Newest(t.history).body.state == Failed
    ensures 1 in t.workers && t.workers == s.workers[1 := t.workers[1]]
  {
    t := Do(reach, ExclusiveJobs, s, Step(1));
    t := Do(reach, ExclusiveJobs, t, Fault(1, false));
    assert t.workers[1].todo == FailureOps(ready.job, STORE_ERROR) && t.workers[1].mine.rev == 0
          && t.history == s.history;
    t := CallAlone(reach, ExclusiveJobs, t, 1);
  }

  /** One store error other than 409 during a claim makes the loser write Failed under the holder. */
  lemma StoreErrorOnClaimBreaksExclusion(s: State) returns (t: State)
    requires Init(s) && s.history[0].body.state == Pending
    ensures Reachable(s, ExclusiveJobs, t)
    ensures t.faults == 1
    ensures !Exclusion(t)
  {
    ReachableIsClosed(s, ExclusiveJobs);
    t := StoreErrorOnClaimBreaksExclusionFrom(t' => Reachable(s, ExclusiveJobs, t'), s);
  }

  /** An Edit can take effect although its answer is a store error: the claim is then in the document,
      but no call has won. */
  lemma UnansweredClaimIsStored(s: State) returns (t: State)
    requires Init(s) && s.history[0].body.state == Pending
    ensures Reachable(s, ExclusiveJobs, t)
    ensures t.faults == 1 && t.finished == [Call(SetState(Processing), Errored)]
    ensures |t.history| == 2 && t.history[1].body == s.history[0].body.(state := Processing)
  {
    ReachableIsClosed(s, ExclusiveJobs);
    var reach: State -> bool := t' => Reachable(s, ExclusiveJobs, t');
    t := Do(reach, ExclusiveJobs, s, Spawn(0, Datafile("u")));
    t := Do(reach, ExclusiveJobs, t, Step(0));
    t := Do(reach, ExclusiveJobs, t, Fault(0, true));
  }

  lemma ResultsAreSmuggled(reach: State -> bool, s: State, b: Body) returns (t: State)
    requires Closed(reach, ExclusiveJobs) && reach(s) && |s.history| == 2 && s.history[1].body == b && s.faults == 0
    requires b.state == Processing && b.results == None
    requires var job := Classify(map["image" := "A"]);
             0 in s.workers && s.workers[0].job == job && s.workers[0].phase.Between? && s.workers[0].mine == Copy(0, b)
             && s.workers[0].todo == Program(job)[8..]
    ensures reach(t) && t.faults == 1
    ensures !Chain(t.history) && t.history != []
    ensures Newest(t.history).body == b.(state := Failed, results := Some(map["image" := "A"]))
  {
    var job, dirty := s.workers[0].job, b.(results := Some(map["image" := "A"]));
    t := DirtyCopy(reach, s, b, job.results);
    t := Do(reach, ExclusiveJobs, t, Fault(0, false));
    assert t.workers[0].mine == Copy(1, dirty) && t.workers[0].todo == FailureOps(job, STORE_ERROR)
          && t.history == s.history;
    t := CallAlone(reach, ExclusiveJobs, t, 0);
    assert |t.history| == 3 && !StoredBy(t.history, 2);
  }

  /** The copy of a classify job, refreshed and holding results, right before its second Edit. */
  lemma DirtyCopy(reach: State -> bool, s: State, b: Body, results: map<string, string>) returns (t: State)
    requires Closed(reach, ExclusiveJobs) && reach(s) && |s.history| == 2 && s.history[1].body == b && b.results == None
    requires 0 in s.workers && s.workers[0].phase.Between? && s.workers[0].mine == Copy(0, b)
    requires s.workers[0].todo == Program(Classify(results))[8..]
    ensures reach(t)
    ensures t == s.(workers := s.workers[0 := s.workers[0].(local := Copy(1, b.(results := Some(results))),
              phase := Editing)])
  {
    var w := s.workers[0];
    var dirty := b.(results := Some(results));
    assert w.todo[0] == Put(SetResults(Some(results)), Pointer, Record);
    t := Do(reach, ExclusiveJobs, s, Step(0));
    assert t == s.(workers := s.workers[0 := w.(local := Copy(0, dirty), phase := Editing)]);
    t := Do(reach, ExclusiveJobs, t, Step(0));
    assert t == s.(workers := s.workers[0 := w.(local := Copy(0, dirty), phase := Refreshing)]);
    t := Do(reach, ExclusiveJobs, t, Step(0));
  }

  lemma StoreErrorSmugglesResultsFrom(reach: State -> bool, s: State) returns (t: State)
    requires Closed(reach, ExclusiveJobs) && reach(s) && Init(s) && s.history[0].body.state == Pending
             && s.history[0].body.results == None
    ensures reach(t)
    ensures t.faults == 1
    ensures var h := t.history;
            !Chain(h) && h != [] && h[|h| - 1].body.state == Failed
                  && h[|h| - 1].body.results == Some(map["image" := "A"])
  {
    var job := Classify(map["image" := "A"]);
    t := Do(reach, ExclusiveJobs, s, Spawn(0, job));
    t := CallAlone(reach, ExclusiveJobs, t, 0);
    t := StagesPass(reach, ExclusiveJobs, t, 0, 7);
    assert t.workers[0].todo == Program(job)[8..];
    t := ResultsAreSmuggled(reach, t, s.history[0].body.(state := Processing));
  }

  /** One store error while a classify job saves its results: the version that then records the
      failure also carries the results, so it is not one call's updater on the version before. */
  lemma StoreErrorSmugglesResults(s: State) returns (t: State)
    requires Init(s) && s.history[0].body.state == Pending && s.history[0].body.results == None
    ensures Reachable(s, ExclusiveJobs, t)
    ensures t.faults == 1
    ensures var h := t.history;
            !Chain(h) && h != [] && h[|h| - 1].body.state == Failed
                  && h[|h| - 1].body.results == Some(map["image" := "A"])
  {
    ReachableIsClosed(s, ExclusiveJobs);
    t := StoreErrorSmugglesResultsFrom(t' => Reachable(s, ExclusiveJobs, t'), s);
  }
}
