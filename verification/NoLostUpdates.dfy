/** Coherence of local copies, and what follows from it for the stored history. */
module NoLostUpdates {
  import opened Documents
  import opened Protocol

  /** Version k is exactly one call's updater applied to version k - 1, and it was a change. */
  ghost predicate StoredBy(h: seq<Version>, k: nat)
    requires 0 < k < |h|
  {
    && h[k].author.By?
    && !Done(h[k].author.update, h[k - 1].body)
    && h[k].body == Apply(h[k].author.update, h[k - 1].body)
  }

  ghost predicate Chain(h: seq<Version>) {
    h != [] && h[0].author == Inserted && forall k :: 0 < k < |h| ==> StoredBy(h, k)
  }

  ghost predicate Coherent(h: seq<Version>, c: Copy) {
    c.rev < |h| && (c.rev == |h| - 1 ==> c.body == h[|h| - 1].body)
  }

  ghost predicate Stale(h: seq<Version>, c: Copy) {
    c.rev + 1 < |h|
  }

  predicate Reuses(op: Op) {
    op.Put? && op.receiver.SameFork?
  }

  /** A copy with the newest revision has the newest body, except between updater and Edit,
      where it has the updater's result on the newest body; the working copy counts as idle only if
      the next call goes on with it. Fields are assigned only to a copy that is already stale. */
  ghost predicate WorkerCoherent(h: seq<Version>, w: Worker)
    requires h != []
  {
    && Coherent(h, w.mine)
    && w.local.rev < |h|
    && (w.phase.Between? && w.todo != [] && Reuses(w.todo[0]) ==> Coherent(h, w.local))
    && (!w.phase.Between? ==> AtCall(w))
    && (w.phase.Editing? && w.local.rev == |h| - 1 ==>
          !Done(UpdateOf(w.todo[0]), h[|h| - 1].body) && w.local.body == Apply(UpdateOf(w.todo[0]), h[|h| - 1].body))
    && (w.phase.Refreshing? ==> Stale(h, w.local))
    && AssignsToStaleCopy(h, w)
    && ReusesFollowCalls(w.todo)
  }

  ghost predicate AssignsToStaleCopy(h: seq<Version>, w: Worker) {
    forall i :: 0 <= i < |w.todo| && w.todo[i].Assign? ==>
      && (Stale(h, w.mine) || (0 < i && w.todo[0].Claim?))
      && (forall j :: 0 <= j < i ==> !(w.todo[j].Put? && w.todo[j].receiver.Pointer?))
  }

  /** A call that goes on with a copy comes right behind the call that made the copy. */
  ghost predicate ReusesFollowCalls(ops: seq<Op>) {
    forall i :: 0 < i < |ops| && Reuses(ops[i]) ==> IsCall(ops[i - 1]) && !Reuses(ops[i - 1])
  }

  ghost predicate Inv(s: State) {
    && Chain(s.history)
    && forall id :: id in s.workers ==> WorkerCoherent(s.history, s.workers[id])
  }

  /** Another worker's stored version makes every copy stale and so keeps it coherent. */
  lemma OtherWorker(h: seq<Version>, v: Version, w: Worker)
    requires h != [] && WorkerCoherent(h, w)
    ensures WorkerCoherent(h + [v], w)
  {
  }

  lemma RestKeepsAssigns(h: seq<Version>, w: Worker, outcome: Outcome)
    requires h != [] && AtCall(w) && AssignsToStaleCopy(h, w) && (outcome.Won? ==> Stale(h, w.local))
    ensures AssignsToStaleCopy(h, Return(w, outcome))
  {
    var r := Return(w, outcome);
    var d := |w.todo| - |r.todo|;
    forall i | 0 <= i < |r.todo| && r.todo[i].Assign?
      ensures Stale(h, r.mine) && forall j :: 0 <= j < i ==> !(r.todo[j].Put? && r.todo[j].receiver.Pointer?)
    {
      assert r.todo == w.todo[d..] && r.todo[i] == w.todo[i + d];
      forall j | 0 <= j < i ensures !(r.todo[j].Put? && r.todo[j].receiver.Pointer?) {
        assert r.todo[j] == w.todo[j + d];
      }
      assert !(w.todo[0].Put? && w.todo[0].receiver.Pointer?);
    }
  }

  lemma RestKeepsReuses(w: Worker, outcome: Outcome)
    requires AtCall(w) && ReusesFollowCalls(w.todo)
    ensures ReusesFollowCalls(Rest(w, outcome))
    ensures outcome.Errored? && Rest(w, outcome) != [] ==> !Reuses(Rest(w, outcome)[0])
  {
    var rest := Rest(w, outcome);
    var d := |w.todo| - |rest|;
    if d >= 0 && rest == w.todo[d..] {
      forall i | 0 < i < |rest| && Reuses(rest[i]) ensures IsCall(rest[i - 1]) && !Reuses(rest[i - 1]) {
        assert rest[i] == w.todo[i + d] && rest[i - 1] == w.todo[i + d - 1];
      }
    }
  }

  /** A call that returns leaves coherent copies behind if the copy it worked on is coherent; when it
      ended in an error, that copy matters only if it is the receiver itself. */
  lemma ReturnKeeps(h: seq<Version>, w: Worker, outcome: Outcome)
    requires h != [] && AtCall(w) && AssignsToStaleCopy(h, w) && ReusesFollowCalls(w.todo)
    requires Coherent(h, w.mine) && w.local.rev < |h|
    requires !outcome.Errored? || ReceiverOf(w.todo[0]).Pointer? ==> Coherent(h, w.local)
    requires outcome.Won? ==> Stale(h, w.local)
    ensures WorkerCoherent(h, Return(w, outcome))
  {
    RestKeepsAssigns(h, w, outcome);
    RestKeepsReuses(w, outcome);
  }

  lemma TestKeeps(h: seq<Version>, w: Worker)
    requires h != [] && AtCall(w) && AssignsToStaleCopy(h, w) && ReusesFollowCalls(w.todo)
    requires Coherent(h, w.mine) && Coherent(h, w.local)
    ensures WorkerCoherent(h, TestAndUpdate(w))
  {
    ReturnKeeps(h, w, Lost);
  }

  /** An Edit that takes effect stores one updater's result on the newest version. */
  lemma EditExtendsChain(h: seq<Version>, id: nat, w: Worker)
    requires Chain(h) && WorkerCoherent(h, w) && w.phase.Editing? && w.local.rev == |h| - 1
    ensures Chain(h + [Version(w.local.body, By(id, UpdateOf(w.todo[0])))])
  {
    var t := h + [Version(w.local.body, By(id, UpdateOf(w.todo[0])))];
    forall k | 0 < k < |t| ensures StoredBy(t, k) {
      assert k < |h| ==> StoredBy(h, k);
    }
  }

  lemma AssignKeepsAssigns(h: seq<Version>, id: nat, w: Worker)
    requires h != [] && AssignsToStaleCopy(h, w) && w.todo != [] && w.todo[0].Assign?
    ensures Stale(h, w.mine) && AssignsToStaleCopy(h, Advance(h, id, w).worker)
  {
    var r := Advance(h, id, w).worker;
    assert Stale(h, w.mine);
    forall i | 0 <= i < |r.todo| && r.todo[i].Assign?
      ensures forall j :: 0 <= j < i ==> !(r.todo[j].Put? && r.todo[j].receiver.Pointer?)
    {
      assert r.todo[i] == w.todo[i + 1];
      forall j | 0 <= j < i ensures !(r.todo[j].Put? && r.todo[j].receiver.Pointer?) {
        assert r.todo[j] == w.todo[j + 1];
      }
    }
  }

  lemma AdvanceKeeps(h: seq<Version>, id: nat, w: Worker)
    requires Chain(h) && WorkerCoherent(h, w) && CanStep(w)
    ensures var r := Advance(h, id, w);
            && Chain(r.history) && WorkerCoherent(r.history, r.worker)
            && (r.history == h || exists v :: r.history == h + [v])
  {
    if w.todo[0].Assign? {
      AssignKeepsAssigns(h, id, w);
    } else if w.phase.Between? {
      TestKeeps(h, w.(local := if ReceiverOf(w.todo[0]).SameFork? then w.local else w.mine));
    } else if w.phase.Refreshing? {
      TestKeeps(h, w.(local := Newest(h)));
    } else if w.local.rev == |h| - 1 {
      EditExtendsChain(h, id, w);
      ReturnKeeps(h + [Version(w.local.body, By(id, UpdateOf(w.todo[0])))], w, Won);
    }
  }

  lemma ReportedKeeps(h: seq<Version>, w: Worker, error: Option<string>)
    requires h != [] && WorkerCoherent(h, w) && w.todo != [] && IsStage(w.todo[0])
    ensures WorkerCoherent(h, Reported(w, error))
  {
    assert |w.todo| > 1 ==> !Reuses(w.todo[1]);
  }

  lemma ProgramsAreSound(job: Job)
    ensures var ops := Program(job);
            && ReusesFollowCalls(ops)
            && forall i :: 0 <= i < |ops| && ops[i].Assign? ==>
                 0 < i && ops[0].Claim? && forall j :: 0 <= j < i ==> !(ops[j].Put? && ops[j].receiver.Pointer?)
    ensures Program(job)[0].Claim? || job.ArtifactWriter?
  {
  }

  lemma NewWorkerIsCoherent(h: seq<Version>, job: Job)
    requires h != []
    ensures WorkerCoherent(h, NewWorker(h, job))
  {
    ProgramsAreSound(job);
  }

  /** The store fails a call on the receiver itself, right at an Edit of the newest revision, and
      stores nothing: the receiver keeps the newest revision but not the newest body. */
  predicate Dirties(s: State, e: Event)
    requires Enabled(s, e)
  {
    e.Fault? && !e.stored &&
    var w := s.workers[e.id];
    w.phase.Editing? && ReceiverOf(w.todo[0]).Pointer? && w.local.rev == |s.history| - 1
  }

  lemma FailingKeeps(h: seq<Version>, id: nat, w: Worker, stored: bool)
    requires Chain(h) && WorkerCoherent(h, w) && AtCall(w) && !w.phase.Between?
    requires w.phase.Editing? && ReceiverOf(w.todo[0]).Pointer? && w.local.rev == |h| - 1 ==> stored
    ensures var r := Failing(h, id, w, stored);
            && Chain(r.history) && WorkerCoherent(r.history, r.worker)
            && (r.history == h || exists v :: r.history == h + [v])
  {
    var r := Failing(h, id, w, stored);
    if r.history != h { EditExtendsChain(h, id, w); }
    ReturnKeeps(r.history, w, Errored);
  }

  lemma ApplyMakesDone(u: Update, b: Body)
    ensures Done(u, Apply(u, b))
  {
  }

  lemma OthersKeep(s: State, t: State, id: nat, w: Worker)
    requires Inv(s) && id in s.workers && t.workers == s.workers[id := w]
    requires Chain(t.history) && WorkerCoherent(t.history, w)
    requires t.history == s.history || exists v :: t.history == s.history + [v]
    ensures Inv(t)
  {
    forall other | other in t.workers && other != id ensures WorkerCoherent(t.history, t.workers[other]) {
      if t.history != s.history {
        var v :| t.history == s.history + [v];
        OtherWorker(s.history, v, s.workers[other]);
      }
    }
  }

  /** Every event keeps the invariant, store errors included, except exactly one kind. */
  lemma NextKeepsIff(s: State, e: Event)
    requires Inv(s) && Enabled(s, e)
    ensures Inv(Next(s, e)) <==> !Dirties(s, e)
  {
    match e
    case Spawn(id, job) => NewWorkerIsCoherent(s.history, job);
    case Report(id, error) =>
      ReportedKeeps(s.history, s.workers[id], error);
      OthersKeep(s, Next(s, e), id, Next(s, e).workers[id]);
    case Step(id) =>
      AdvanceKeeps(s.history, id, s.workers[id]);
      OthersKeep(s, Next(s, e), id, Next(s, e).workers[id]);
    case Fault(id, stored) =>
      if Dirties(s, e) {
        ApplyMakesDone(UpdateOf(s.workers[id].todo[0]), s.history[|s.history| - 1].body);
        assert !Coherent(s.history, Next(s, e).workers[id].mine);
      } else {
        FailingKeeps(s.history, id, s.workers[id], stored);
        OthersKeep(s, Next(s, e), id, Next(s, e).workers[id]);
      }
  }

  /** No event of the run dirties a receiver. */
  predicate Clean(s: State, run: seq<Event>)
    requires Legal(s, run)
    decreases |run|
  {
    run == [] || (!Dirties(s, run[0]) && Clean(Next(s, run[0]), run[1..]))
  }

  lemma {:induction false} FaultsGrow(s: State, run: seq<Event>)
    requires Legal(s, run)
    ensures s.faults <= Exec(s, run).faults
    decreases |run|
  {
    if run != [] { FaultsGrow(Next(s, run[0]), run[1..]); }
  }

  /** Runs without store errors are clean. */
  lemma {:induction false} FaultlessRunsAreClean(s: State, run: seq<Event>)
    requires Legal(s, run) && Exec(s, run).faults == s.faults
    ensures Clean(s, run)
    decreases |run|
  {
    if run != [] {
      FaultsGrow(Next(s, run[0]), run[1..]);
      FaultlessRunsAreClean(Next(s, run[0]), run[1..]);
    }
  }

  lemma {:induction false} ExecKeeps(s: State, run: seq<Event>)
    requires Inv(s) && Legal(s, run) && Clean(s, run)
    ensures Inv(Exec(s, run))
    decreases |run|
  {
    if run != [] {
      NextKeepsIff(s, run[0]);
      ExecKeeps(Next(s, run[0]), run[1..]);
    }
  }

  /** The invariant holds throughout a run if and only if the run is clean. */
  lemma {:induction false} InvThroughoutIffClean(s: State, run: seq<Event>)
    requires Inv(s) && Legal(s, run)
    ensures Always(Inv, s, run) <==> Clean(s, run)
    decreases |run|
  {
    if run != [] {
      NextKeepsIff(s, run[0]);
      if Inv(Next(s, run[0])) { InvThroughoutIffClean(Next(s, run[0]), run[1..]); }
    }
  }

  /** In every interleaving of every number of workers, each stored version is one call's
      updater applied to the version immediately before it, and idle copies stay coherent. Store
      errors do no harm to this as long as none of them dirties a receiver. */
  lemma EveryVersionIsOneUpdate(s: State, run: seq<Event>)
    requires Init(s) && Legal(s, run) && Clean(s, run)
    ensures Inv(Exec(s, run))
  {
    ExecKeeps(s, run);
  }

  /** The last version at or below n that wrote a field; 0 if only the insertion did. */
  ghost function LastWriter(h: seq<Version>, f: Field, n: nat): nat
    requires n < |h|
  {
    if n == 0 || (h[n].author.By? && FieldOf(h[n].author.update) == f) then n else LastWriter(h, f, n - 1)
  }

  lemma {:induction false} FieldsComeFromTheirLastWriter(h: seq<Version>, f: Field, n: nat)
    requires Chain(h) && n < |h|
    ensures var k := LastWriter(h, f, n);
            && k <= n && AgreeOn(f, h[n].body, h[k].body)
            && (k > 0 ==> h[k].author.By? && FieldOf(h[k].author.update) == f && Done(h[k].author.update, h[n].body))
            && (forall j :: k < j <= n ==> h[j].author.By? && FieldOf(h[j].author.update) != f)
  {
    if n > 0 {
      assert StoredBy(h, n);
      if FieldOf(h[n].author.update) != f {
        FieldsComeFromTheirLastWriter(h, f, n - 1);
      }
    }
  }

  /** No update is lost: whatever a worker stored is still in the newest version unless a later
      version wrote the same fields. A claim, the artifact URLs and the processing log are three
      different fields, so all three survive whichever workers wrote them. */
  lemma UpdatesSurvive(s: State, run: seq<Event>, k: nat)
    requires Init(s) && Legal(s, run) && Clean(s, run)
    requires 0 < k < |Exec(s, run).history|
    ensures var h := Exec(s, run).history;
            && h[k].author.By?
            && ((forall j :: k < j < |h| ==>
                  h[j].author.By? && FieldOf(h[j].author.update) != FieldOf(h[k].author.update)) ==>
                  Done(h[k].author.update, h[|h| - 1].body))
  {
    EveryVersionIsOneUpdate(s, run);
    SurvivesIn(Exec(s, run).history, k);
  }

  lemma SurvivesIn(h: seq<Version>, k: nat)
    requires Chain(h) && 0 < k < |h|
    ensures h[k].author.By?
    ensures (forall j :: k < j < |h| ==>
              h[j].author.By? && FieldOf(h[j].author.update) != FieldOf(h[k].author.update)) ==>
              Done(h[k].author.update, h[|h| - 1].body)
  {
    assert StoredBy(h, k);
    FieldsComeFromTheirLastWriter(h, FieldOf(h[k].author.update), |h| - 1);
  }
}
