/** The Run method of a datafile job. */
module DatafileRuns {
  import opened Documents
  import opened Protocol
  import opened Scripts
  import opened RetryLoop
  import opened Updates
  import opened Traces

  /** The calls of a datafile download; an error of it is recorded by the state alone. */
  function DatafileCalls(claim: Outcome, error: Option<string>, finished: Outcome, end: Outcome): seq<Call> {
    var first := [Call(SetState(Processing), claim)];
    if claim.Lost? then first
    else if claim.Errored? || error.Some? then first + [Call(SetState(Failed), end)]
    else
      var second := first + [Call(SetState(FinishedSuccessfully), finished)];
      if finished.Errored? then second + [Call(SetState(Failed), end)] else second
  }

  /** What a datafile job that won its claim on b leaves behind: the new URL and the message of a
      failure are not stored. */
  function Copied(b: Body, error: Option<string>): Body {
    b.(state := if error.Some? then Failed else FinishedSuccessfully)
  }

  lemma VerdictAlone(st: ProcessingState, b: Body, v: seq<Body>, updated: bool, w: seq<Body>)
    requires v != [] && b.state == v[|v| - 1].state == Processing && st != Processing
    requires StoredAlone(SetState(st), b, v, updated, w)
    ensures w != [] && w[|w| - 1] == v[|v| - 1].(state := st)
  {
  }

  /** A terminal state of a datafile, through a value receiver. */
  method StoreVerdict(db: Store, d: Document, st: ProcessingState, ghost n: nat, ghost calls: seq<Call>)
    returns (failed: bool, ghost outcome: Outcome)
    requires db.Valid() && d.revision < |db.versions| && st != Processing
    modifies db
    ensures db.Valid() && old(db.versions) <= db.versions && failed == outcome.Errored?
    ensures Ends(old(db.versions), db.versions, d.body, calls, SetState(st), calls + [Call(SetState(st), outcome)])
    ensures Carries(old(db.versions), db.versions, d.body, calls, calls + [Call(SetState(st), outcome)])
    ensures db.errors == old(db.errors) + Fails(outcome)
    ensures Faultless(old(db.schedule)) ==> !failed && Faultless(db.schedule)
    ensures old(Steady(db, d, n, calls)) ==> Steady(db, d, n, calls + [Call(SetState(st), outcome)])
    ensures old(Quiet(db, d)) ==> !failed
    ensures old(Quiet(db, d)) && d.body.state == old(db.Last()).state == Processing ==>
              db.Last() == old(db.Last()).(state := st)
  {
    var updated;
    updated, failed := UpdateCopy(db, d, SetState(st), n, calls);
    outcome := OutcomeOf(updated, failed);
    if old(Quiet(db, d)) && d.body.state == old(db.Last()).state == Processing {
      VerdictAlone(st, d.body, old(db.versions), updated, db.versions);
    }
  }

  /** A datafile run behind its claim. */
  method CopyDatafile(db: Store, d: Document, url: string, blobStore: Option<string>, copied: Option<string>,
        ghost n: nat, ghost calls: seq<Call>)
    returns (ghost finished: Outcome, ghost end: Outcome)
    requires db.Valid() && d.revision < |db.versions| - 1
    modifies db, d
    ensures db.Valid() && old(db.versions) <= db.versions
    ensures blobStore.None? && copied.None? ==> d.body.sourceUrl == url
    ensures calls == [Call(SetState(Processing), Won)] ==>
              var all := DatafileCalls(Won, if blobStore.Some? then blobStore else copied, finished, end);
              Carries(old(db.versions), db.versions, old(d.body), calls, all)
    ensures db.errors == old(db.errors) + Fails(finished) + Fails(end)
    ensures Faultless(old(db.schedule)) ==> !finished.Errored? && !end.Errored?
    ensures old(Steady(db, d, n, calls)) && calls == [Call(SetState(Processing), Won)] ==>
              Backed(db, n, DatafileCalls(Won, if blobStore.Some? then blobStore else copied, finished, end))
    ensures old(Quiet(db, d)) && old(d.body) == old(db.Last()) && old(d.body).state == Processing ==>
              db.Last() == Copied(old(db.Last()), if blobStore.Some? then blobStore else copied)
  {
    finished, end := Lost, Lost;
    FirstOfConcat([blobStore], copied);
    assert [blobStore] + [copied] == [blobStore, copied];
    var error := RunStages([blobStore, copied]);
    var failed;
    if error.Some? {
      failed, end := StoreVerdict(db, d, Failed, n, calls);
      return;
    }
    d.body := d.body.(sourceUrl := url);
    failed, finished := StoreVerdict(db, d, FinishedSuccessfully, n, calls);
    ghost var v, more := db.versions, calls + [Call(SetState(FinishedSuccessfully), finished)];
    ghost var all := more;
    if failed {
      failed, end := StoreVerdict(db, d, Failed, n, more);
      all := more + [Call(SetState(Failed), end)];
      ThenCarries(old(db.versions), v, db.versions, d.body, calls, more, all);
    }
    AssignedCarries(old(db.versions), db.versions, old(d.body), d.body, calls, all);
  }

  /** The calls of a claim; an error of it is recorded by the state alone. */
  function ClaimingCalls(claim: Outcome, end: Outcome): seq<Call> {
    var first := [Call(SetState(Processing), claim)];
    if claim.Errored? then first + [Call(SetState(Failed), end)] else first
  }

  /** How a datafile run begins. */
  method ClaimDatafile(db: Store, d: Document) returns (won: bool, ghost claim: Outcome, ghost end: Outcome)
    requires db.Valid() && db.Coherent(d)
    modifies db, d
    ensures db.Valid() && old(db.versions) <= db.versions && won == claim.Won? && (!claim.Errored? ==> end.Lost?)
    ensures won ==> d.body.state == Processing && d.revision < |db.versions| - 1
    ensures won ==> Begun(old(db.versions), db.versions, d.body, [Call(SetState(Processing), Won)])
    ensures db.errors == old(db.errors) + Fails(claim) + Fails(end)
    ensures !won ==> Took(old(d.body), old(db.versions), db.versions, claim, ClaimingCalls(claim, end))
    ensures Faultless(old(db.schedule)) ==>
              !claim.Errored? && !end.Errored? && Steady(db, d, |old(db.own)|, ClaimingCalls(claim, end))
    ensures old(db.schedule) == [] ==>
              && Quiet(db, d) && ClaimedAlone(old(d.body), old(db.versions), won, db.versions)
              && (won ==> d.body == db.Last())
  {
    ghost var n := |db.own|;
    assert db.own[n..] == [];
    var updated, failed := UpdateDocument(db, d, SetState(Processing), n, []);
    claim, end, won := OutcomeOf(updated, failed), Lost, updated;
    ghost var first := [Call(SetState(Processing), claim)];
    assert [] + first == first;
    if failed {
      assert Poised(db.versions, |old(db.versions)| - 1, d.body, first, SetState(Failed));
      failed, end := StoreVerdict(db, d, Failed, n, first);
    } else if updated {
      BegunHere(old(db.versions), db.versions, d.body);
    } else {
      LostIsDeclined(old(d.body), old(db.versions), db.versions, d.body);
    }
  }

  lemma CopiedAlone(b: Body, v: seq<Body>, won: bool, claimed: seq<Body>, w: seq<Body>, error: Option<string>)
    requires v != [] && ClaimedAlone(b, v, won, claimed) && claimed <= w && (!won ==> w == claimed)
    requires won ==> w[|w| - 1] == Copied(claimed[|claimed| - 1], error)
    ensures RanAlone(b, v, w, Copied(v[|v| - 1], error))
  {
    if won { RanFromClaim(b, v, claimed, w, w[|w| - 1]); }
  }

  /** A datafile run, in any environment. If the store does not fail, no call of it does, and what it
      stored is what its calls won; alone it leaves exactly `Copied`. */
  method RunDatafile(db: Store, d: Document, url: string, blobStore: Option<string>, copied: Option<string>)
    returns (ghost claim: Outcome, ghost finished: Outcome, ghost end: Outcome)
    requires db.Valid() && db.Coherent(d)
    modifies db, d
    ensures db.Valid() && old(db.versions) <= db.versions
    ensures claim.Won? && blobStore.None? && copied.None? ==> d.body.sourceUrl == url
    ensures db.errors == old(db.errors) + Fails(claim) + Fails(finished) + Fails(end)
    ensures Took(old(d.body), old(db.versions), db.versions, claim,
                 DatafileCalls(claim, if blobStore.Some? then blobStore else copied, finished, end))
    ensures Faultless(old(db.schedule)) ==>
              && !claim.Errored? && !finished.Errored? && !end.Errored?
              && Backed(db, |old(db.own)|,
                     DatafileCalls(claim, if blobStore.Some? then blobStore else copied, finished, end))
    ensures old(db.schedule) == [] ==>
              RanAlone(old(d.body), old(db.versions), db.versions,
                       Copied(old(db.Last()), if blobStore.Some? then blobStore else copied))
  {
    ghost var n, before, start := |db.own|, db.versions, d.body;
    var won;
    won, claim, end := ClaimDatafile(db, d);
    finished := Lost;
    ghost var claimed, b := db.versions, d.body;
    if won {
      ghost var calls := [Call(SetState(Processing), Won)];
      finished, end := CopyDatafile(db, d, url, blobStore, copied, n, calls);
      ghost var all := DatafileCalls(Won, if blobStore.Some? then blobStore else copied, finished, end);
      TookFromClaim(start, before, claimed, db.versions, b, calls, all);
    }
    if old(db.schedule) == [] {
      CopiedAlone(start, before, won, claimed, db.versions, if blobStore.Some? then blobStore else copied);
    }
  }

  /** A datafile run that won its claim and whose calls did not fail left its verdict in some version
      since, whatever other clients stored meanwhile. */
  lemma CopyIsStored(start: Body, v: seq<Body>, w: seq<Body>, error: Option<string>, finished: Outcome, end: Outcome)
    requires v != [] && !finished.Errored? && !end.Errored?
    requires Took(start, v, w, Won, DatafileCalls(Won, error, finished, end))
    ensures exists from :: |v| <= from && IsClaim(w, from)
              && ShowsState(w, from, if error.Some? then Failed else FinishedSuccessfully)
  {
    var calls := DatafileCalls(Won, error, finished, end);
    var from :| |v| <= from && IsClaim(w, from) && Effective(w, from, calls);
    CallIsSeen(w, from, calls, calls[1]);
  }

  lemma FailurePlays(job: Job, t: Trace, message: string, end: Outcome) returns (next: Trace)
    requires Playing(job, t) && job.Datafile? && t.progress.todo == FailureOps(job, message)
    ensures Playing(job, next) && next.progress.todo == [] && Reports(next.inputs) == Reports(t.inputs)
    ensures next.progress.calls == t.progress.calls + [Call(SetState(Failed), end)]
  {
    assert t.progress.todo == [Put(SetState(Failed), Fork, Skip)];
    next := CallEnds(job, t, SetState(Failed), end);
  }

  /** These are the calls of the program. */
  lemma DatafilePlays(url: string, claim: Outcome, blobStore: Option<string>, copied: Option<string>,
        finished: Outcome, end: Outcome)
    returns (t: Trace)
    ensures Complete(Datafile(url), t, [blobStore, copied])
    ensures t.progress.calls == DatafileCalls(claim, if blobStore.Some? then blobStore else copied, finished, end)
  {
    var job, finish := Datafile(url), Put(SetState(FinishedSuccessfully), Fork, Record);
    var rest := [Assign(SourceUrl(url)), finish];
    t := Start(job);
    var ops := Program(job);
    t := CallEnds(job, t, SetState(Processing), claim);
    assert t.progress.calls == [Call(SetState(Processing), claim)];
    if claim.Errored? {
      t := FailurePlays(job, t, STORE_ERROR, end);
    } else if claim.Won? {
      assert ops[1..] == [Work, Work] + rest && ops[1..][1..] == [Work] + rest && ops[1..][1..][1..] == rest;
      assert rest[1..] == [finish] && SkipAssigns(rest) == SkipAssigns([finish]) == [finish];
      t := StageEnds(job, t, blobStore);
      if blobStore.Some? {
        t := FailurePlays(job, t, blobStore.value, end);
      } else {
        t := StageEnds(job, t, copied);
        if copied.Some? {
          t := FailurePlays(job, t, copied.value, end);
        } else {
          assert t.progress.todo == [finish] + [];
          t := PutEnds(job, t, SetState(FinishedSuccessfully), Fork, [], finished);
          if finished.Errored? { t := FailurePlays(job, t, STORE_ERROR, end); }
        }
      }
    }
  }
}
