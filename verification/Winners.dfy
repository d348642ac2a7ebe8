/** `true` returns are transitions of the stored document. */
module Winners {
  import opened Documents
  import opened Protocol
  import opened NoLostUpdates

  ghost function Wins(calls: seq<Call>, st: ProcessingState): nat {
    if calls == [] then 0
    else Wins(calls[..|calls| - 1], st) + if calls[|calls| - 1] == Call(SetState(st), Won) then 1 else 0
  }

  /** Stored versions that moved from not-in-`st` to in-`st`. */
  ghost function Entries(h: seq<Version>, st: ProcessingState): nat {
    if |h| <= 1 then 0
    else Entries(h[..|h| - 1], st) + if h[|h| - 2].body.state != st && h[|h| - 1].body.state == st then 1 else 0
  }

  /** Versions that a call for `st` stored. */
  ghost function Authored(h: seq<Version>, st: ProcessingState): nat {
    if h == [] then 0 else Authored(h[..|h| - 1], st) + if Sets(h[|h| - 1], st) then 1 else 0
  }

  predicate Sets(v: Version, st: ProcessingState) {
    v.author.By? && v.author.update == SetState(st)
  }

  /** A call for `st` takes effect, but its answer is a store error. */
  predicate Unanswered(s: State, e: Event, st: ProcessingState)
    requires Enabled(s, e)
  {
    e.Fault? && Appends(s, e) && UpdateOf(s.workers[e.id].todo[0]) == SetState(st)
  }

  ghost function UnansweredIn(s: State, run: seq<Event>, st: ProcessingState): nat
    requires Legal(s, run)
    decreases |run|
  {
    if run == [] then 0
    else (if Unanswered(s, run[0], st) then 1 else 0) + UnansweredIn(Next(s, run[0]), run[1..], st)
  }

  lemma WinsOfAppend(calls: seq<Call>, c: Call, st: ProcessingState)
    ensures Wins(calls + [c], st) == Wins(calls, st) + if c == Call(SetState(st), Won) then 1 else 0
  {
    assert (calls + [c])[..|calls|] == calls;
  }

  lemma AuthoredOfAppend(h: seq<Version>, v: Version, st: ProcessingState)
    ensures Authored(h + [v], st) == Authored(h, st) + if Sets(v, st) then 1 else 0
  {
    assert (h + [v])[..|h|] == h;
  }

  /** A step that stores nothing returns at most `false`; a step that stores a version returns true. */
  lemma StepOutcome(h: seq<Version>, id: nat, w: Worker)
    requires h != [] && CanStep(w) && WorkerCoherent(h, w)
    ensures var r := Advance(h, id, w);
            if w.phase.Editing? && w.local.rev == |h| - 1 then
              var u := UpdateOf(w.todo[0]);
              && r.history == h + [Version(Apply(u, h[|h| - 1].body), By(id, u))]
              && !Done(u, h[|h| - 1].body)
              && r.worker.calls == w.calls + [Call(u, Won)]
            else
              && r.history == h
              && (r.worker.calls == w.calls || (AtCall(w)
                    && r.worker.calls == w.calls + [Call(UpdateOf(w.todo[0]), Lost)]))
  {
  }

  /** What any event, in any state, adds to the history and to the finished calls. */
  lemma EventOutcome(s: State, e: Event)
    requires Enabled(s, e)
    ensures var t := Next(s, e);
            if Appends(s, e) then
              var u := UpdateOf(s.workers[e.id].todo[0]);
              && (exists b :: t.history == s.history + [Version(b, By(e.id, u))])
              && t.finished == s.finished + [Call(u, if e.Step? then Won else Errored)]
            else
              && t.history == s.history
              && (t.finished == s.finished || exists c: Call :: !c.outcome.Won? && t.finished == s.finished + [c])
  {
    if Appends(s, e) {
      var w := s.workers[e.id];
      assert Next(s, e).history == s.history + [Version(w.local.body, By(e.id, UpdateOf(w.todo[0])))];
    }
  }

  lemma EventBalances(s: State, e: Event, st: ProcessingState)
    requires Enabled(s, e)
    ensures var t := Next(s, e);
            Wins(t.finished, st) + (if Unanswered(s, e, st) then 1 else 0) - Wins(s.finished, st)
            == Authored(t.history, st) - Authored(s.history, st)
  {
    EventOutcome(s, e);
    var t := Next(s, e);
    if Appends(s, e) {
      var u := UpdateOf(s.workers[e.id].todo[0]);
      var b :| t.history == s.history + [Version(b, By(e.id, u))];
      AuthoredOfAppend(s.history, Version(b, By(e.id, u)), st);
      WinsOfAppend(s.finished, Call(u, if e.Step? then Won else Errored), st);
    } else if t.finished != s.finished {
      var c: Call :| !c.outcome.Won? && t.finished == s.finished + [c];
      WinsOfAppend(s.finished, c, st);
    }
  }

  lemma {:induction false} ExecBalances(s: State, run: seq<Event>, st: ProcessingState)
    requires Legal(s, run)
    ensures var t := Exec(s, run);
            Wins(t.finished, st) + UnansweredIn(s, run, st) - Wins(s.finished, st)
            == Authored(t.history, st) - Authored(s.history, st)
    decreases |run|
  {
    if run != [] {
      EventBalances(s, run[0], st);
      ExecBalances(Next(s, run[0]), run[1..], st);
    }
  }

  lemma StoredEnters(u: Update, b: Body, st: ProcessingState)
    requires !Done(u, b)
    ensures (b.state != st && Apply(u, b).state == st) <==> u == SetState(st)
  {
  }

  lemma ChainPrefix(h: seq<Version>, n: nat)
    requires Chain(h) && 0 < n <= |h|
    ensures Chain(h[..n])
  {
    forall k | 0 < k < n ensures StoredBy(h[..n], k) {
      assert StoredBy(h, k);
    }
  }

  /** Where every version is one update, the versions written for a state are those that entered it. */
  lemma {:induction false} AuthoredEnter(h: seq<Version>, st: ProcessingState)
    requires Chain(h)
    ensures Authored(h, st) == Entries(h, st)
  {
    if |h| > 1 {
      assert StoredBy(h, |h| - 1);
      StoredEnters(h[|h| - 1].author.update, h[|h| - 2].body, st);
      ChainPrefix(h, |h| - 1);
      AuthoredEnter(h[..|h| - 1], st);
    } else {
      assert h[..0] == [];
    }
  }

  /** Over any run that leaves every version one update of its predecessor: the calls that returned
      true for a state, and those that took effect for it without an answer, are together as many as
      the stored versions that entered that state. */
  lemma WinnersAreTransitions(s: State, run: seq<Event>, st: ProcessingState)
    requires Init(s) && Legal(s, run) && Chain(Exec(s, run).history)
    ensures Wins(Exec(s, run).finished, st) + UnansweredIn(s, run, st) == Entries(Exec(s, run).history, st)
  {
    ExecBalances(s, run, st);
    assert Authored(s.history, st) == 0 by { assert s.history[..0] == []; }
    AuthoredEnter(Exec(s, run).history, st);
  }

  lemma {:induction false} NothingUnanswered(s: State, run: seq<Event>, st: ProcessingState)
    requires Legal(s, run) && Exec(s, run).faults == s.faults
    ensures UnansweredIn(s, run, st) == 0
    decreases |run|
  {
    if run != [] {
      FaultsGrow(Next(s, run[0]), run[1..]);
      NothingUnanswered(Next(s, run[0]), run[1..], st);
    }
  }

  /** Without store errors `true` means "updated by this call", and nothing else entered the state. */
  lemma TrueMeansUpdated(s: State, run: seq<Event>, st: ProcessingState)
    requires Init(s) && Legal(s, run) && Exec(s, run).faults == 0
    ensures Wins(Exec(s, run).finished, st) == Entries(Exec(s, run).history, st)
  {
    FaultlessRunsAreClean(s, run);
    EveryVersionIsOneUpdate(s, run);
    WinnersAreTransitions(s, run, st);
    NothingUnanswered(s, run, st);
  }
}
