/** Exactly when a stored version is not one update of the version before it: over every run, of jobs
    of every kind, with any store errors. */
module Spoiling {
  import opened Documents
  import opened Protocol
  import opened NoLostUpdates

  /** A copy that an errored call changed but did not store: the update u stays in it. */
  ghost predicate Remains(h: seq<Version>, c: Copy, u: Update) {
    c.rev < |h| && !Done(u, h[c.rev].body) && c.body == Apply(u, h[c.rev].body)
  }

  /** A worker about to store a copy in which an errored call's update u was left behind. */
  ghost predicate LeftBehind(h: seq<Version>, w: Worker, u: Update) {
    && w.phase.Editing? && AtCall(w) && w.local.rev < |h|
    && !Done(u, h[w.local.rev].body)
    && w.local.body == Apply(UpdateOf(w.todo[0]), Apply(u, h[w.local.rev].body))
  }

  /** The event is an Edit that stores what an errored call left behind, in another field than the one
      now written, or although the write changes nothing in the newest version. */
  ghost predicate Spoils(s: State, e: Event)
    requires Enabled(s, e)
  {
    Appends(s, e) &&
    var h, w := s.history, s.workers[e.id];
    var v := UpdateOf(w.todo[0]);
    exists u :: LeftBehind(h, w, u) && (FieldOf(u) != FieldOf(v) || Done(v, h[|h| - 1].body))
  }

  /** Every stored version is one call's updater on the version right before it. */
  ghost predicate Chained(s: State) {
    Chain(s.history)
  }

  ghost predicate NeverSpoiling(s: State, run: seq<Event>)
    requires Legal(s, run)
    decreases |run|
  {
    run == [] || (!Spoils(s, run[0]) && NeverSpoiling(Next(s, run[0]), run[1..]))
  }

  /** A worker whose receiver has the newest revision with something left behind: it has nothing to do
      but to record the failure, from copies of that receiver. */
  ghost predicate Tainted(h: seq<Version>, w: Worker)
    requires h != []
  {
    && w.mine.rev == |h| - 1 && w.local.rev < |h|
    && (exists u :: Remains(h, w.mine, u))
    && (w.todo == [] || w.todo == FailureOps(w.job, STORE_ERROR) || w.todo == FailureOps(w.job, STORE_ERROR)[1..])
    && (if w.phase.Between? then w.todo != [] ==> w.local == w.mine
        else
          && w.phase.Editing? && w.todo != [] && !Done(UpdateOf(w.todo[0]), w.mine.body)
          && w.local == w.mine.(body := Apply(UpdateOf(w.todo[0]), w.mine.body)))
  }

  /** Only a last operation may skip the error of a call on the receiver itself. */
  predicate SkipsLast(ops: seq<Op>) {
    forall i :: 0 <= i < |ops| - 1 && ops[i].Put? && ops[i].receiver.Pointer? ==> ops[i].onError.Record?
  }

  /** What a worker's copies know about the document, in any run. */
  ghost predicate Sound(h: seq<Version>, w: Worker)
    requires h != []
  {
    SkipsLast(w.todo) && (WorkerCoherent(h, w) || Tainted(h, w))
  }

  ghost predicate AllSound(s: State) {
    s.history != [] && forall id :: id in s.workers ==> Sound(s.history, s.workers[id])
  }

  /** Another worker's version makes the receiver stale, and with it all that was left behind. */
  lemma TaintFades(h: seq<Version>, v: Version, w: Worker)
    requires h != [] && Tainted(h, w)
    ensures WorkerCoherent(h + [v], w)
  {
  }

  lemma OtherStaysSound(h: seq<Version>, v: Version, w: Worker)
    requires h != [] && Sound(h, w)
    ensures Sound(h + [v], w)
  {
    if Tainted(h, w) { TaintFades(h, v, w); } else { OtherWorker(h, v, w); }
  }

  lemma RestSkipsLast(w: Worker, outcome: Outcome)
    requires AtCall(w) && SkipsLast(w.todo)
    ensures SkipsLast(Rest(w, outcome))
  {
  }

  lemma StageSkipsLast(w: Worker, error: Option<string>)
    requires w.todo != [] && IsStage(w.todo[0]) && SkipsLast(w.todo)
    ensures SkipsLast(Reported(w, error).todo)
  {
  }

  lemma MoveSkipsLast(s: State, e: Event)
    requires AllSound(s) && Enabled(s, e) && !e.Spawn?
    ensures SkipsLast(Next(s, e).workers[e.id].todo)
  {
    var w := s.workers[e.id];
    if e.Report? {
      StageSkipsLast(w, e.error);
    } else if AtCall(w) {
      RestSkipsLast(w, Won);
      RestSkipsLast(w, Lost);
      RestSkipsLast(w, Errored);
    }
  }

  /** A call of a tainted worker that finds its copy done, or fails again, leaves the receiver as it is. */
  lemma TaintedMoves(h: seq<Version>, w: Worker)
    requires h != [] && Tainted(h, w) && w.todo != []
    ensures AtCall(w) && !ReceiverOf(w.todo[0]).Pointer?
    ensures w.phase.Between? ==> Tainted(h, TestAndUpdate(w.(local := w.mine)))
    ensures w.phase.Editing? ==> Tainted(h, Return(w, Errored))
  {
    var ops := FailureOps(w.job, STORE_ERROR);
    assert ops[0] == Put(SetState(Failed), Fork, Skip);
    assert |ops| > 1 ==> ops[1] == Put(SetLog(STORE_ERROR), SameFork, Skip) && ops[1..] == [ops[1]] && ops[2..] == [];
  }

  lemma TaintedLeavesBehind(h: seq<Version>, w: Worker) returns (u: Update)
    requires h != [] && Tainted(h, w) && w.phase.Editing?
    ensures Remains(h, w.mine, u) && LeftBehind(h, w, u) && w.local.rev == |h| - 1
  {
    TaintedMoves(h, w);
    u :| Remains(h, w.mine, u);
  }

  /** A store error that dirties the receiver taints its worker. */
  lemma DirtyIsTainted(s: State, e: Event)
    requires s.history != [] && Enabled(s, e) && Dirties(s, e)
    requires WorkerCoherent(s.history, s.workers[e.id]) && SkipsLast(s.workers[e.id].todo)
    ensures Tainted(s.history, Next(s, e).workers[e.id]) && Next(s, e).history == s.history
  {
    var w := s.workers[e.id];
    assert Remains(s.history, w.local, UpdateOf(w.todo[0]));
    assert ReusesFollowCalls(w.todo);
  }

  lemma ChainGrowsIff(h: seq<Version>, v: Version)
    requires Chain(h)
    ensures Chain(h + [v]) <==>
              v.author.By? && !Done(v.author.update, h[|h| - 1].body)
              && v.body == Apply(v.author.update, h[|h| - 1].body)
  {
    var t := h + [v];
    forall k | 0 < k < |h| ensures StoredBy(t, k) {
      assert StoredBy(h, k);
    }
    assert Chain(t) <==> StoredBy(t, |h|);
  }

  /** An update u left behind shows unless the update v on top of it writes the same field. */
  lemma LeftoverShowsIff(u: Update, v: Update, b: Body)
    requires !Done(u, b)
    ensures Apply(v, Apply(u, b)) == Apply(v, b) <==> FieldOf(u) == FieldOf(v)
  {
    ApplyMakesDone(u, b);
  }

  /** Exactly when the next Edit of such a worker, whether its answer arrives or not, makes a version
      that is not one update of its predecessor: nobody stored a version since the error, and what was
      left behind is another field than the one now written, or the write changes nothing. */
  lemma LeftBehindReachesHistoryIff(s: State, e: Event, u: Update)
    requires Chain(s.history) && Enabled(s, e) && (e.Step? || e.Fault?) && LeftBehind(s.history, s.workers[e.id], u)
    ensures var h, w := s.history, s.workers[e.id];
            var v := UpdateOf(w.todo[0]);
            !Chain(Next(s, e).history) <==> Appends(s, e) && (FieldOf(u) != FieldOf(v) || Done(v, h[|h| - 1].body))
  {
    var h, w := s.history, s.workers[e.id];
    if Appends(s, e) {
      ChainGrowsIff(h, Version(w.local.body, By(e.id, UpdateOf(w.todo[0]))));
      LeftoverShowsIff(u, UpdateOf(w.todo[0]), h[|h| - 1].body);
    }
  }

  lemma CoherentNeverSpoils(s: State, e: Event)
    requires s.history != [] && Enabled(s, e) && Appends(s, e)
    ensures WorkerCoherent(s.history, s.workers[e.id]) ==> !Spoils(s, e)
  {
    var h, w := s.history, s.workers[e.id];
    var v := UpdateOf(w.todo[0]);
    if WorkerCoherent(h, w) {
      forall u | LeftBehind(h, w, u) ensures FieldOf(u) == FieldOf(v) {
        LeftoverShowsIff(u, v, h[|h| - 1].body);
      }
    }
  }

  lemma TaintedSpoilsIff(s: State, e: Event)
    requires Chain(s.history) && Enabled(s, e) && Appends(s, e) && Tainted(s.history, s.workers[e.id])
    ensures Chain(Next(s, e).history) <==> !Spoils(s, e)
  {
    var u := TaintedLeavesBehind(s.history, s.workers[e.id]);
    LeftBehindReachesHistoryIff(s, e, u);
    forall x | LeftBehind(s.history, s.workers[e.id], x) {
      LeftBehindReachesHistoryIff(s, e, x);
    }
  }

  /** The version that an Edit stores, one way or another, is one update of its predecessor exactly
      if it is not spoilt. */
  lemma AppendedIsOneUpdateIff(s: State, e: Event)
    requires Chain(s.history) && AllSound(s) && Enabled(s, e) && Appends(s, e)
    ensures Chain(Next(s, e).history) <==> !Spoils(s, e)
  {
    var h, w := s.history, s.workers[e.id];
    if Tainted(h, w) {
      TaintedSpoilsIff(s, e);
    } else {
      EditExtendsChain(h, e.id, w);
      CoherentNeverSpoils(s, e);
    }
  }

  /** Behind a version that is one update, its writer knows nothing wrong. */
  lemma WriterStaysSound(s: State, e: Event)
    requires AllSound(s) && Enabled(s, e) && Appends(s, e)
    ensures WorkerCoherent(Next(s, e).history, Next(s, e).workers[e.id])
  {
    var h, w := s.history, s.workers[e.id];
    var v := Version(w.local.body, By(e.id, UpdateOf(w.todo[0])));
    if Tainted(h, w) { TaintFades(h, v, w); } else { OtherWorker(h, v, w); }
    ReturnKeeps(h + [v], w, if e.Step? then Won else Errored);
  }

  /** An event that stores nothing. */
  lemma MoverStaysSound(s: State, e: Event)
    requires Chain(s.history) && AllSound(s) && Enabled(s, e) && !e.Spawn? && !Appends(s, e)
    ensures Next(s, e).history == s.history && Sound(s.history, Next(s, e).workers[e.id])
  {
    var h, w := s.history, s.workers[e.id];
    MoveSkipsLast(s, e);
    if Tainted(h, w) {
      TaintedMoves(h, w);
    } else if e.Report? {
      ReportedKeeps(h, w, e.error);
    } else if e.Step? {
      AdvanceKeeps(h, e.id, w);
    } else if Dirties(s, e) {
      DirtyIsTainted(s, e);
    } else {
      FailingKeeps(h, e.id, w, e.stored);
    }
  }

  lemma NextIsSound(s: State, e: Event)
    requires Chain(s.history) && AllSound(s) && Enabled(s, e)
    ensures AllSound(Next(s, e))
  {
    var t := Next(s, e);
    if e.Spawn? {
      NewWorkerIsCoherent(s.history, e.job);
    } else {
      if Appends(s, e) {
        MoveSkipsLast(s, e);
        WriterStaysSound(s, e);
      } else {
        MoverStaysSound(s, e);
      }
      forall i | i in t.workers && i != e.id ensures Sound(t.history, t.workers[i]) {
        if Appends(s, e) { OtherStaysSound(s.history, t.history[|s.history|], s.workers[i]); }
      }
    }
  }

  /** One event breaks the chain of updates exactly when it is a spoiling one. */
  lemma ChainStepIff(s: State, e: Event)
    requires Chain(s.history) && AllSound(s) && Enabled(s, e)
    ensures Chain(Next(s, e).history) <==> !Spoils(s, e)
  {
    if Appends(s, e) {
      AppendedIsOneUpdateIff(s, e);
    } else if !e.Spawn? {
      MoverStaysSound(s, e);
    }
  }

  lemma {:induction false} ChainFromIff(s: State, run: seq<Event>)
    requires Chain(s.history) && AllSound(s) && Legal(s, run)
    ensures Always(Chained, s, run) <==> NeverSpoiling(s, run)
    decreases |run|
  {
    if run != [] {
      ChainStepIff(s, run[0]);
      NextIsSound(s, run[0]);
      if Chain(Next(s, run[0]).history) { ChainFromIff(Next(s, run[0]), run[1..]); }
    }
  }

  /** Over every run of any jobs, with any store errors: every stored version is one call's updater
      applied to the version right before it, if and only if no event stores what an errored call
      left behind. */
  lemma ChainIffNeverSpoiling(s: State, run: seq<Event>)
    requires Init(s) && Legal(s, run)
    ensures Always(Chained, s, run) <==> NeverSpoiling(s, run)
  {
    ChainFromIff(s, run);
  }

  lemma {:induction false} RunsAreSound(s: State, run: seq<Event>)
    requires Chain(s.history) && AllSound(s) && Legal(s, run) && NeverSpoiling(s, run)
    ensures Chain(Exec(s, run).history) && AllSound(Exec(s, run))
    decreases |run|
  {
    if run != [] {
      ChainStepIff(s, run[0]);
      NextIsSound(s, run[0]);
      RunsAreSound(Next(s, run[0]), run[1..]);
    }
  }

  /** The first spoiling event of a run is always the recording of a store error, by a worker whose
      receiver still has the newest revision. */
  lemma SpoilersRecordAFailure(start: State, run: seq<Event>, e: Event)
    requires Init(start) && Legal(start, run) && NeverSpoiling(start, run)
    requires Enabled(Exec(start, run), e) && Spoils(Exec(start, run), e)
    ensures var s := Exec(start, run);
            var w := s.workers[e.id];
            && w.mine.rev == |s.history| - 1 && (exists u :: Remains(s.history, w.mine, u))
            && (UpdateOf(w.todo[0]) == SetState(Failed) || UpdateOf(w.todo[0]) == SetLog(STORE_ERROR))
  {
    RunsAreSound(start, run);
    CoherentNeverSpoils(Exec(start, run), e);
  }

  /** Nobody but worker id moves, n times. */
  function Alone(id: nat, n: nat): seq<Event> {
    seq(n, _ => Step(id))
  }

  lemma AloneSteps(s: State, id: nat, n: nat)
    requires Enabled(s, Step(id))
    ensures Legal(s, Alone(id, n + 1)) <==> Legal(Next(s, Step(id)), Alone(id, n))
    ensures Legal(s, Alone(id, n + 1)) ==>
              Exec(s, Alone(id, n + 1)) == Exec(Next(s, Step(id)), Alone(id, n))
  {
    assert Alone(id, n + 1)[1..] == Alone(id, n);
  }

  lemma TaintedTests(s: State, id: nat, u: Update)
    requires s.history != [] && id in s.workers && Tainted(s.history, s.workers[id])
    requires Remains(s.history, s.workers[id].mine, u)
    requires s.workers[id].phase.Between? && s.workers[id].todo != []
    ensures Enabled(s, Step(id))
    ensures var w, t := s.workers[id], Next(s, Step(id));
            && t.history == s.history && id in t.workers
            && if Done(UpdateOf(w.todo[0]), w.mine.body)
               then
                 t.workers[id] == Return(w, Lost) && Tainted(t.history, t.workers[id]) && t.workers[id].mine == w.mine
               else LeftBehind(t.history, t.workers[id], u)
  {
    TaintedMoves(s.history, s.workers[id]);
  }

  /** A tainted worker that nobody interrupts comes to store what was left behind, unless its receiver
      passes the done tests of everything it has to record. */
  lemma {:induction false} TaintedGoesOn(s: State, id: nat, u: Update) returns (n: nat)
    requires s.history != [] && id in s.workers && Tainted(s.history, s.workers[id])
    requires Remains(s.history, s.workers[id].mine, u) && s.workers[id].phase.Between?
    ensures n <= |s.workers[id].todo| && Legal(s, Alone(id, n))
    ensures var w, t := s.workers[id], Exec(s, Alone(id, n));
            && t.history == s.history && id in t.workers
            && if exists op :: op in w.todo && !Done(UpdateOf(op), w.mine.body)
               then LeftBehind(t.history, t.workers[id], u) else t.workers[id].todo == []
    decreases |s.workers[id].todo|
  {
    var w := s.workers[id];
    n := 0;
    if w.todo != [] {
      TaintedMoves(s.history, w);
      TaintedTests(s, id, u);
      AloneSteps(s, id, 0);
      n := 1;
      if Done(UpdateOf(w.todo[0]), w.mine.body) {
        var m := TaintedGoesOn(Next(s, Step(id)), id, u);
        AloneSteps(s, id, m);
        n := m + 1;
      }
    }
  }

  /** What a worker does next whose store error dirtied the receiver, if nobody else moves: it comes
      to store a copy with the update left behind, unless that copy already looks failed in the
      state and, where the job logs its failures, in the log. */
  lemma ErrorLeavesUpdateBehind(s: State, id: nat) returns (n: nat)
    requires Inv(s) && Enabled(s, Fault(id, false)) && Dirties(s, Fault(id, false)) && SkipsLast(s.workers[id].todo)
    ensures n <= 2 && Legal(Next(s, Fault(id, false)), Alone(id, n))
    ensures var w := s.workers[id];
            var t := Exec(Next(s, Fault(id, false)), Alone(id, n));
            && t.history == s.history && id in t.workers
            && if exists op :: op in Rest(w, Errored) && !Done(UpdateOf(op), w.local.body)
               then LeftBehind(t.history, t.workers[id], UpdateOf(w.todo[0]))
               else t.workers[id].todo == []
  {
    DirtyIsTainted(s, Fault(id, false));
    n := TaintedGoesOn(Next(s, Fault(id, false)), id, UpdateOf(s.workers[id].todo[0]));
  }
}
