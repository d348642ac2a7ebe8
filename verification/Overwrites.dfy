/** Exactly when exclusion holds: over every run, of jobs of every kind, with any store errors. */
module Overwrites {
  import opened Documents
  import opened Protocol
  import opened NoLostUpdates
  import opened NonOverlap

  predicate StoresVerdict(s: State, e: Event)
    requires Enabled(s, e)
  {
    Appends(s, e) && IsVerdict(s.workers[e.id].todo[0]) && s.workers[e.id].todo[0].update.state != Processing
  }

  /** The workers between their winning claim and their terminal write. */
  ghost function Holders(workers: map<nat, Worker>): set<nat> {
    set i | i in workers && Holding(workers[i])
  }

  /** The event stores a terminal state while another worker holds the document, or the writer itself
      if the answer is lost, so that it does not know. */
  ghost predicate Overwriting(s: State, e: Event)
    requires Enabled(s, e)
  {
    StoresVerdict(s, e) && (if e.Fault? then Holders(s.workers) else Holders(s.workers) - {e.id}) != {}
  }

  ghost predicate StateCoherent(h: seq<Version>, c: Copy) {
    c.rev < |h| && (c.rev == |h| - 1 ==> c.body.state == h[|h| - 1].body.state)
  }

  /** Behind its first call a worker never claims, and reuses a copy only right behind a terminal write. */
  predicate LaterOps(ops: seq<Op>) {
    forall i :: 0 <= i < |ops| ==>
      && !ops[i].Claim?
      && (IsVerdict(ops[i]) ==> ops[i].update.state != Processing)
      && (IsVerdict(ops[i]) && ops[i].receiver.Pointer? ==> ops[i].update.state != Failed && ops[i].onError.Record?)
      && (Reuses(ops[i]) && i > 0 ==> IsVerdict(ops[i - 1]) && !Reuses(ops[i - 1]))
  }

  /** A receiver left in state st by a failed call only ever writes its state again. */
  predicate Guarded(st: ProcessingState, ops: seq<Op>) {
    && (ops != [] ==> st != Failed)
    && forall i :: 0 <= i < |ops| ==>
         && (ops[i].Put? ==> Reuses(ops[i]) || IsVerdict(ops[i]))
         && (i > 0 && Reuses(ops[i]) ==> IsVerdict(ops[i - 1]) && ops[i - 1].update.state != st)
  }

  ghost predicate Planned(h: seq<Version>, w: Worker) {
    if w.calls == [] then w.todo == Program(w.job) && StateCoherent(h, w.mine)
    else LaterOps(w.todo) && (StateCoherent(h, w.mine) || Guarded(w.mine.body.state, w.todo))
  }

  /** What a worker's copies know about the state of the document, in any run. */
  ghost predicate Tame(h: seq<Version>, w: Worker)
    requires h != []
  {
    && w.mine.rev < |h| && w.local.rev < |h|
    && Planned(h, w)
    && (w.phase.Between? && w.todo != [] && Reuses(w.todo[0]) ==> StateCoherent(h, w.local))
    && (!w.phase.Between? ==> AtCall(w) && Done(UpdateOf(w.todo[0]), w.local.body))
    && (!w.phase.Between? && w.calls == [] ==> !Done(UpdateOf(w.todo[0]), w.mine.body))
    && (w.phase.Refreshing? ==> Stale(h, w.local))
    && (w.phase.Editing? && w.local.rev == |h| - 1 ==>
          var u := UpdateOf(w.todo[0]);
          if u.SetState? then u.state == Processing ==> h[|h| - 1].body.state != Processing
          else w.local.body.state == h[|h| - 1].body.state)
  }

  lemma RestStartsPlain(w: Worker, outcome: Outcome)
    requires AtCall(w) && LaterOps(w.todo) && Rest(w, outcome) != []
    ensures outcome.Errored? ==> !Reuses(Rest(w, outcome)[0])
    ensures !outcome.Errored? && Reuses(Rest(w, outcome)[0]) ==> IsVerdict(w.todo[0])
  {
    var rest := Rest(w, outcome);
    if outcome.Errored? {
      if w.todo[0].onError.Record? {
        assert rest[0] == Put(SetState(Failed), Fork, Skip);
      } else if |w.todo| > 1 && w.todo[1].Put? && w.todo[1].receiver.SameFork? {
        assert Reuses(w.todo[1]) && rest[0] == w.todo[2];
      } else {
        assert rest[0] == w.todo[1];
      }
    } else {
      assert rest[0] == w.todo[1];
    }
  }

  lemma LaterOpsOfRest(w: Worker, outcome: Outcome)
    requires AtCall(w) && LaterOps(w.todo)
    ensures LaterOps(Rest(w, outcome))
    ensures outcome.Errored? && Rest(w, outcome) != [] ==> !Reuses(Rest(w, outcome)[0])
    ensures !outcome.Errored? && Rest(w, outcome) != [] && Reuses(Rest(w, outcome)[0]) ==> IsVerdict(w.todo[0])
  {
    var rest := Rest(w, outcome);
    var d := |w.todo| - |rest|;
    if rest != [] { RestStartsPlain(w, outcome); }
    if d >= 0 && rest == w.todo[d..] {
      forall i | 0 <= i < |rest|
        ensures !rest[i].Claim? && (IsVerdict(rest[i]) ==> rest[i].update.state != Processing)
        ensures IsVerdict(rest[i]) && rest[i].receiver.Pointer? ==>
                  rest[i].update.state != Failed && rest[i].onError.Record?
        ensures Reuses(rest[i]) && i > 0 ==> IsVerdict(rest[i - 1]) && !Reuses(rest[i - 1])
      {
        assert rest[i] == w.todo[i + d];
        assert i > 0 ==> rest[i - 1] == w.todo[i + d - 1];
      }
    }
  }

  lemma GuardedFailure(st: ProcessingState, job: Job, message: string)
    requires st != Failed
    ensures Guarded(st, FailureOps(job, message)) && LaterOps(FailureOps(job, message))
  {
    var ops := FailureOps(job, message);
    assert ops[0] == Put(SetState(Failed), Fork, Skip);
    assert |ops| > 1 ==> ops[1] == Put(SetLog(message), SameFork, Skip);
  }

  lemma GuardedRest(st: ProcessingState, w: Worker, outcome: Outcome)
    requires AtCall(w) && Guarded(st, w.todo)
    ensures Guarded(st, Rest(w, outcome))
  {
    var rest := Rest(w, outcome);
    var d := |w.todo| - |rest|;
    GuardedFailure(st, w.job, STORE_ERROR);
    if d >= 0 && rest == w.todo[d..] {
      forall i | 0 <= i < |rest|
        ensures rest[i].Put? ==> Reuses(rest[i]) || IsVerdict(rest[i])
        ensures i > 0 && Reuses(rest[i]) ==> IsVerdict(rest[i - 1]) && rest[i - 1].update.state != st
      {
        assert rest[i] == w.todo[i + d];
        assert i > 0 ==> rest[i - 1] == w.todo[i + d - 1];
      }
    }
  }

  /** Every job but the artifact writer starts with a claim, and what follows it is a tail. */
  lemma ProgramAfterClaim(job: Job)
    requires !job.ArtifactWriter?
    ensures Program(job)[0].Claim? && LaterOps(Program(job)[1..])
  {
    var ops := Program(job);
    if job.Training? {
      assert ops[1..] == [ops[1], Work, Put(SetLabels(Some(job.labels)), Fork, Record), Work,
                          Put(SetModelUrl(job.modelUrl), Fork, Record), Put(SetState(FinishedSuccessfully), Fork, Skip),
                          Put(SetLog(""), SameFork, Skip)];
    } else {
      assert forall i :: 0 <= i < |ops| ==> !Reuses(ops[i]);
    }
  }

  /** The first call: a claim, or the artifact writer's only one. */
  lemma FirstReturn(h: seq<Version>, w: Worker, outcome: Outcome)
    requires h != [] && AtCall(w) && w.calls == [] && w.todo == Program(w.job)
    requires w.mine.rev < |h| && w.local.rev < |h|
    requires outcome.Won? ==> Stale(h, w.local)
    requires outcome.Errored? ==> Done(UpdateOf(w.todo[0]), w.local.body)
    ensures Tame(h, Return(w, outcome))
  {
    var r := Return(w, outcome);
    if !w.job.ArtifactWriter? { ProgramAfterClaim(w.job); }
    GuardedFailure(Processing, w.job, STORE_ERROR);
  }

  lemma LaterReturn(h: seq<Version>, w: Worker, outcome: Outcome)
    requires h != [] && AtCall(w) && w.calls != [] && Planned(h, w)
    requires w.mine.rev < |h| && w.local.rev < |h|
    requires outcome.Won? ==> Stale(h, w.local)
    requires outcome.Lost? ==>
             StateCoherent(h, w.local)
             || (w.local == w.mine && !Reuses(w.todo[0]) && Done(UpdateOf(w.todo[0]), w.mine.body))
    requires outcome.Errored? ==>
               Done(UpdateOf(w.todo[0]), w.local.body) && (StateCoherent(h, w.local) || IsVerdict(w.todo[0]))
    ensures Tame(h, Return(w, outcome))
  {
    var r := Return(w, outcome);
    LaterOpsOfRest(w, outcome);
    if outcome.Errored? && IsVerdict(w.todo[0]) && w.todo[0].receiver.Pointer? {
      GuardedFailure(w.todo[0].update.state, w.job, STORE_ERROR);
    }
    if Guarded(w.mine.body.state, w.todo) { GuardedRest(w.mine.body.state, w, outcome); }
  }

  lemma ReturnIsTame(h: seq<Version>, w: Worker, outcome: Outcome)
    requires h != [] && AtCall(w) && Planned(h, w) && w.mine.rev < |h| && w.local.rev < |h|
    requires outcome.Won? ==> Stale(h, w.local)
    requires outcome.Lost? ==>
               StateCoherent(h, w.local)
               || (w.local == w.mine && !Reuses(w.todo[0]) && Done(UpdateOf(w.todo[0]), w.mine.body))
    requires outcome.Errored? ==>
               Done(UpdateOf(w.todo[0]), w.local.body) && (StateCoherent(h, w.local) || UpdateOf(w.todo[0]).SetState?)
    ensures Tame(h, Return(w, outcome))
  {
    if w.calls == [] { FirstReturn(h, w, outcome); } else { LaterReturn(h, w, outcome); }
  }

  lemma TestIsTame(h: seq<Version>, w: Worker)
    requires h != [] && AtCall(w) && Planned(h, w) && w.mine.rev < |h| && w.local.rev < |h|
    requires StateCoherent(h, w.local) || (w.local == w.mine && !Reuses(w.todo[0]))
    requires w.calls == [] ==> w.local == w.mine || !Done(UpdateOf(w.todo[0]), w.mine.body)
    ensures Tame(h, TestAndUpdate(w))
  {
    var u := UpdateOf(w.todo[0]);
    if Done(u, w.local.body) {
      ReturnIsTame(h, w, Lost);
    } else {
      ApplyMakesDone(u, w.local.body);
    }
  }

  /** The worker behind an Edit that took effect; the version has the state that was written, or the
      state of the version before. */
  lemma EditIsTame(h: seq<Version>, id: nat, w: Worker, outcome: Outcome)
    requires h != [] && Tame(h, w) && w.phase.Editing? && w.local.rev == |h| - 1 && !outcome.Lost?
    ensures var v, u := Version(w.local.body, By(id, UpdateOf(w.todo[0]))), UpdateOf(w.todo[0]);
            && Tame(h + [v], Return(w, outcome))
            && v.body.state == if u.SetState? then u.state else h[|h| - 1].body.state
  {
    ReturnIsTame(h + [Version(w.local.body, By(id, UpdateOf(w.todo[0])))], w, outcome);
  }

  lemma AdvanceIsTame(h: seq<Version>, id: nat, w: Worker)
    requires h != [] && Tame(h, w) && CanStep(w)
    ensures Tame(Advance(h, id, w).history, Advance(h, id, w).worker)
  {
    if w.todo[0].Assign? {
      ShorterIsPlanned(h, w, w.mine.(body := Assigned(w.todo[0].fields, w.mine.body)));
    } else if w.phase.Between? {
      TestIsTame(h, w.(local := if ReceiverOf(w.todo[0]).SameFork? then w.local else w.mine));
    } else if w.phase.Refreshing? {
      TestIsTame(h, w.(local := Newest(h)));
    } else if w.local.rev == |h| - 1 {
      EditIsTame(h, id, w, Won);
    }
  }

  /** Dropping an operation that is not a call. */
  lemma ShorterIsPlanned(h: seq<Version>, w: Worker, mine: Copy)
    requires h != [] && Planned(h, w) && w.todo != [] && !IsCall(w.todo[0])
    requires mine.rev == w.mine.rev && mine.body.state == w.mine.body.state
    ensures Planned(h, w.(mine := mine, todo := w.todo[1..])) && w.calls != []
    ensures |w.todo| > 1 ==> !Reuses(w.todo[1])
  {
    var rest := w.todo[1..];
    assert IsCall(Program(w.job)[0]);
    assert forall i :: 0 <= i < |rest| ==> rest[i] == w.todo[i + 1];
    forall i | 0 < i < |rest| ensures rest[i - 1] == w.todo[i] {}
  }

  lemma FailingIsTame(h: seq<Version>, id: nat, w: Worker, stored: bool)
    requires h != [] && Tame(h, w) && AtCall(w) && !w.phase.Between?
    ensures Tame(Failing(h, id, w, stored).history, Failing(h, id, w, stored).worker)
  {
    if stored && w.phase.Editing? && w.local.rev == |h| - 1 {
      EditIsTame(h, id, w, Errored);
    } else {
      ReturnIsTame(h, w, Errored);
    }
  }

  lemma ReportedIsTame(h: seq<Version>, w: Worker, error: Option<string>)
    requires h != [] && Tame(h, w) && w.todo != [] && IsStage(w.todo[0])
    ensures Tame(h, Reported(w, error))
  {
    ShorterIsPlanned(h, w, w.mine);
  }

  ghost predicate AllTame(s: State) {
    s.history != [] && forall id :: id in s.workers ==> Tame(s.history, s.workers[id])
  }

  /** Appending a version leaves every other worker tame: its copies are stale now. */
  lemma OtherIsTame(h: seq<Version>, v: Version, w: Worker)
    requires h != [] && Tame(h, w)
    ensures Tame(h + [v], w)
  {
  }

  lemma MoveIsTame(s: State, t: State, id: nat)
    requires AllTame(s) && id in s.workers && id in t.workers && t.workers == s.workers[id := t.workers[id]]
    requires t.history == s.history || exists v :: t.history == s.history + [v]
    requires t.history != [] && Tame(t.history, t.workers[id])
    ensures AllTame(t)
  {
    forall i | i in t.workers && i != id ensures Tame(t.history, t.workers[i]) {
      if t.history != s.history {
        var v :| t.history == s.history + [v];
        OtherIsTame(s.history, v, s.workers[i]);
      }
    }
  }

  lemma NextIsTame(s: State, e: Event)
    requires AllTame(s) && Enabled(s, e)
    ensures AllTame(Next(s, e))
  {
    var t := Next(s, e);
    match e
    case Spawn(_, _) =>
    case Report(id, error) =>
      ReportedIsTame(s.history, s.workers[id], error);
      MoveIsTame(s, t, id);
    case Step(id) =>
      AdvanceIsTame(s.history, id, s.workers[id]);
      MoveIsTame(s, t, id);
    case Fault(id, stored) =>
      FailingIsTame(s.history, id, s.workers[id], stored);
      MoveIsTame(s, t, id);
  }

  /** The call that a worker returns from, if any, is its last one. */
  lemma HoldAfter(w: Worker, w': Worker)
    requires w'.calls == w.calls || (|w'.calls| == |w.calls| + 1 && w'.calls[..|w.calls|] == w.calls)
    ensures w'.calls == w.calls ==> (Holding(w') <==> Holding(w))
    ensures w'.calls != w.calls ==>
              var c := w'.calls[|w.calls|];
              && (!c.outcome.Won? || !c.update.SetState? ==> (Holding(w') <==> Holding(w)))
              && (c.outcome.Won? && c.update.SetState? && c.update.state != Processing ==> !Holding(w'))
  {
    if w'.calls != w.calls {
      var c := w'.calls[|w.calls|];
      assert w'.calls == w.calls + [c];
      WinsOfCall(w.calls, c);
      if c.outcome.Won? && c.update.SetState? {
        assert StateWins(w'.calls)[|StateWins(w.calls)|] == c.update.state;
      }
    }
  }

  lemma OneMoves(workers: map<nat, Worker>, id: nat, w: Worker)
    requires id in workers
    ensures Holders(workers[id := w]) == if Holding(w) then Holders(workers) + {id} else Holders(workers) - {id}
  {
  }

  /** What an event leaves of the history and of the acting worker. */
  lemma EventEffect(s: State, e: Event)
    requires AllTame(s) && Enabled(s, e) && (e.Step? || e.Fault?)
    ensures var w, t := s.workers[e.id], Next(s, e);
            && t.history != [] && e.id in t.workers && t.workers == s.workers[e.id := t.workers[e.id]]
            && if Appends(s, e) then
                 var u := UpdateOf(w.todo[0]);
                 && t.workers[e.id].calls == w.calls + [Call(u, if e.Step? then Won else Errored)]
                 && Newest(t.history).body.state == (if u.SetState? then u.state else Newest(s.history).body.state)
                 && (u == SetState(Processing) ==> Newest(s.history).body.state != Processing)
               else
                 && t.history == s.history
                 && (t.workers[e.id].calls == w.calls
                     || exists c: Call :: !c.outcome.Won? && t.workers[e.id].calls == w.calls + [c])
  {
    var w := s.workers[e.id];
    if Appends(s, e) {
      EditIsTame(s.history, e.id, w, if e.Step? then Won else Errored);
    } else if Next(s, e).workers[e.id].calls != w.calls {
      var c := Next(s, e).workers[e.id].calls[|w.calls|];
      assert !c.outcome.Won? && Next(s, e).workers[e.id].calls == w.calls + [c];
    }
  }

  /** At most one holder, and none of a document that is not in Processing. */
  predicate Excludes(holders: set<nat>, state: ProcessingState) {
    (forall i, j :: i in holders && j in holders ==> i == j) && (holders != {} ==> state == Processing)
  }

  lemma ExclusionIsExcludes(s: State)
    requires s.history != []
    ensures Exclusion(s) <==> Excludes(Holders(s.workers), Newest(s.history).body.state)
  {
    var holders := Holders(s.workers);
    if Excludes(holders, Newest(s.history).body.state) {
      assert forall i :: i in s.workers && Holding(s.workers[i]) ==> i in holders;
    }
    if Exclusion(s) && holders != {} {
      var i :| i in holders;
    }
  }

  lemma HoldersAfter(s: State, e: Event)
    requires AllTame(s) && Enabled(s, e) && (e.Step? || e.Fault?)
    ensures var h, h', t := Holders(s.workers), Holders(Next(s, e).workers), Next(s, e);
            && t.history != []
            && if StoresVerdict(s, e) then
                 h' == (if e.Fault? then h else h - {e.id}) && Newest(t.history).body.state != Processing
               else
                 || (h' == h && Newest(t.history).body.state == Newest(s.history).body.state)
                 || (h' <= h + {e.id} && Newest(s.history).body.state != Processing
                       && Newest(t.history).body.state == Processing)
  {
    EventEffect(s, e);
    var t := Next(s, e);
    HoldAfter(s.workers[e.id], t.workers[e.id]);
    OneMoves(s.workers, e.id, t.workers[e.id]);
  }

  /** One event breaks exclusion exactly when it is an overwriting one. */
  lemma ExclusionStepIff(s: State, e: Event)
    requires AllTame(s) && Exclusion(s) && Enabled(s, e)
    ensures Exclusion(Next(s, e)) <==> !Overwriting(s, e)
  {
    if e.Spawn? || e.Report? {
      NoStoreEvent(s, e);
    } else {
      HoldersAfter(s, e);
      ExclusionIsExcludes(s);
      ExclusionIsExcludes(Next(s, e));
    }
  }

  lemma NoStoreEvent(s: State, e: Event)
    requires Exclusion(s) && Enabled(s, e) && (e.Spawn? || e.Report?)
    ensures Exclusion(Next(s, e))
  {
    var t := Next(s, e);
    assert forall i :: i in t.workers && Holding(t.workers[i]) ==> i in s.workers && Holding(s.workers[i]);
  }

  ghost predicate NeverOverwriting(s: State, run: seq<Event>)
    requires Legal(s, run)
    decreases |run|
  {
    run == [] || (!Overwriting(s, run[0]) && NeverOverwriting(Next(s, run[0]), run[1..]))
  }

  lemma {:induction false} ExclusionFromIff(s: State, run: seq<Event>)
    requires AllTame(s) && Exclusion(s) && Legal(s, run)
    ensures Always(Exclusion, s, run) <==> NeverOverwriting(s, run)
    decreases |run|
  {
    if run != [] {
      NextIsTame(s, run[0]);
      ExclusionStepIff(s, run[0]);
      if Exclusion(Next(s, run[0])) { ExclusionFromIff(Next(s, run[0]), run[1..]); }
    }
  }

  /** Over every run of any jobs, with any store errors: there is never more than one holder and
      never a holder of a document that is not in Processing, if and only if no event stores a
      terminal state while another worker holds, or the writer itself if its answer is lost. */
  lemma ExclusionIffNeverOverwriting(s: State, run: seq<Event>)
    requires Init(s) && Legal(s, run)
    ensures Always(Exclusion, s, run) <==> NeverOverwriting(s, run)
  {
    ExclusionFromIff(s, run);
  }

  lemma {:induction false} RunsAreTame(s: State, run: seq<Event>)
    requires AllTame(s) && Legal(s, run)
    ensures AllTame(Exec(s, run))
    decreases |run|
  {
    if run != [] {
      NextIsTame(s, run[0]);
      RunsAreTame(Next(s, run[0]), run[1..]);
    }
  }

  /** In any run, when a claim returns from a step, it has won if and only if neither the worker's
      copy nor the document is in Processing at that moment, finished or not; and only then has it
      stored a version. */
  lemma ClaimWinsIff(start: State, run: seq<Event>, id: nat)
    requires Init(start) && Legal(start, run) && Enabled(Exec(start, run), Step(id))
    requires var s := Exec(start, run);
             s.workers[id].todo[0].Claim? && Next(s, Step(id)).workers[id].calls != s.workers[id].calls
    ensures var s, t := Exec(start, run), Next(Exec(start, run), Step(id));
            var w := s.workers[id];
            && s.history != []
            && (t.workers[id].calls == w.calls + [Call(SetState(Processing), Won)]
                <==> w.mine.body.state != Processing && Newest(s.history).body.state != Processing)
            && (t.history != s.history <==> t.workers[id].calls == w.calls + [Call(SetState(Processing), Won)])
  {
    RunsAreTame(start, run);
    ClaimReturns(Exec(start, run).history, id, Exec(start, run).workers[id]);
  }

  lemma ClaimReturns(h: seq<Version>, id: nat, w: Worker)
    requires h != [] && Tame(h, w) && w.todo != [] && w.todo[0].Claim? && Advance(h, id, w).worker.calls != w.calls
    ensures var r := Advance(h, id, w);
            && (r.worker.calls == w.calls + [Call(SetState(Processing), Won)]
                <==> w.mine.body.state != Processing && Newest(h).body.state != Processing)
            && (r.history != h <==> r.worker.calls == w.calls + [Call(SetState(Processing), Won)])
  {
    assert w.calls == [];
    var lost, won := Call(SetState(Processing), Lost), Call(SetState(Processing), Won);
    assert (w.calls + [lost])[0] != (w.calls + [won])[0];
  }
}
