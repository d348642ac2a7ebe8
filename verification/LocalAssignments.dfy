/** Fields that a job assigns to its own copy: no run stores them, whatever the store does. */
module LocalAssignments {
  import opened Documents
  import opened Protocol
  import opened NoLostUpdates

  predicate Untouched(h: seq<Version>, b: Body)
    requires h != []
  {
    AgreeOn(LocalFields, b, h[0].body)
  }

  /** A copy with the newest revision still has the inserted values in the locally assigned fields. */
  ghost predicate CopyUntouched(h: seq<Version>, c: Copy)
    requires h != []
  {
    c.rev < |h| && (c.rev == |h| - 1 ==> Untouched(h, c.body))
  }

  ghost predicate WorkerUntouched(h: seq<Version>, w: Worker)
    requires h != []
  {
    && CopyUntouched(h, w.mine) && CopyUntouched(h, w.local)
    && (!w.phase.Between? ==> AtCall(w))
    && AssignsToStaleCopy(h, w)
  }

  ghost predicate AllUntouched(s: State) {
    && s.history != []
    && (forall k :: 0 <= k < |s.history| ==> Untouched(s.history, s.history[k].body))
    && (forall id :: id in s.workers ==> WorkerUntouched(s.history, s.workers[id]))
  }

  lemma ReturnUntouched(h: seq<Version>, w: Worker, outcome: Outcome)
    requires h != [] && AtCall(w) && AssignsToStaleCopy(h, w) && CopyUntouched(h, w.mine) && CopyUntouched(h, w.local)
    requires outcome.Won? ==> Stale(h, w.local)
    ensures WorkerUntouched(h, Return(w, outcome))
  {
    RestKeepsAssigns(h, w, outcome);
  }

  lemma AdvanceUntouched(h: seq<Version>, id: nat, w: Worker)
    requires h != [] && WorkerUntouched(h, w) && CanStep(w) && Untouched(h, h[|h| - 1].body)
    ensures var r := Advance(h, id, w);
            && WorkerUntouched(r.history, r.worker)
            && (r.history == h || exists v :: r.history == h + [v] && Untouched(h, v.body))
  {
    if w.todo[0].Assign? {
      AssignKeepsAssigns(h, id, w);
    } else if w.phase.Between? {
      ReturnUntouched(h, w.(local := if ReceiverOf(w.todo[0]).SameFork? then w.local else w.mine), Lost);
    } else if w.phase.Refreshing? {
      ReturnUntouched(h, w.(local := Newest(h)), Lost);
    } else if w.local.rev == |h| - 1 {
      ReturnUntouched(h + [Version(w.local.body, By(id, UpdateOf(w.todo[0])))], w, Won);
    }
  }

  lemma FailingUntouched(h: seq<Version>, id: nat, w: Worker, stored: bool)
    requires h != [] && WorkerUntouched(h, w) && AtCall(w)
    ensures var r := Failing(h, id, w, stored);
            && WorkerUntouched(r.history, r.worker)
            && (r.history == h || exists v :: r.history == h + [v] && Untouched(h, v.body))
  {
    ReturnUntouched(Failing(h, id, w, stored).history, w, Errored);
  }

  lemma OthersUntouched(s: State, t: State, id: nat, w: Worker)
    requires AllUntouched(s) && id in s.workers && t.workers == s.workers[id := w]
    requires t.history == s.history || exists v :: t.history == s.history + [v] && Untouched(s.history, v.body)
    requires WorkerUntouched(t.history, w)
    ensures AllUntouched(t)
  {
  }

  lemma NextUntouched(s: State, e: Event)
    requires AllUntouched(s) && Enabled(s, e)
    ensures AllUntouched(Next(s, e))
  {
    var t := Next(s, e);
    match e
    case Spawn(_, _) =>
    case Report(_, _) =>
    case Step(id) =>
      AdvanceUntouched(s.history, id, s.workers[id]);
      OthersUntouched(s, t, id, t.workers[id]);
    case Fault(id, stored) =>
      FailingUntouched(s.history, id, s.workers[id], stored);
      OthersUntouched(s, t, id, t.workers[id]);
  }

  lemma {:induction false} ExecUntouched(s: State, run: seq<Event>)
    requires AllUntouched(s) && Legal(s, run)
    ensures AllUntouched(Exec(s, run)) && Exec(s, run).history[0] == s.history[0]
    decreases |run|
  {
    if run != [] {
      NextUntouched(s, run[0]);
      ExecUntouched(Next(s, run[0]), run[1..]);
    }
  }

  /** The fields a job assigns to its own copy after claiming (output URLs, the datafile's new
      source URL) are never stored, in any run at all. */
  lemma AssignedFieldsAreNeverStored(s: State, run: seq<Event>, k: nat)
    requires Init(s) && Legal(s, run) && k < |Exec(s, run).history|
    ensures var b, first := Exec(s, run).history[k].body, s.history[0].body;
            b.stdOutUrl == first.stdOutUrl && b.stdErrUrl == first.stdErrUrl && b.sourceUrl == first.sourceUrl
  {
    ExecUntouched(s, run);
  }

  /** The assignments themselves: they change the worker's own copy and nothing else. */
  lemma AssignmentsStayLocal(s: State, id: nat)
    requires s.history != [] && id in s.workers && s.workers[id].todo != [] && s.workers[id].todo[0].Assign?
    ensures Enabled(s, Step(id)) && Next(s, Step(id)).history == s.history
    ensures var w, c := s.workers[id], Next(s, Step(id)).workers[id].mine;
            && c.rev == w.mine.rev
            && c.body == match w.todo[0].fields
                         case OutputUrls(out, err) => w.mine.body.(stdOutUrl := out, stdErrUrl := err)
                         case SourceUrl(url) => w.mine.body.(sourceUrl := url)
  {
  }
}
