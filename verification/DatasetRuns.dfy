/** The two Run methods of a dataset: splitting one datafile, or downloading two. */
module DatasetRuns {
  import opened Documents
  import opened Protocol
  import opened Scripts
  import opened RetryLoop
  import opened Updates
  import opened Traces

  function FailedOr(b: Body, error: Option<string>): Body {
    if error.Some? then b.(state := Failed, log := error.value) else b.(state := FinishedSuccessfully)
  }

  /** The calls of a splitter, after those behind its claim. */
  function SplitCalls(calls: seq<Call>, error: Option<string>, first: Outcome, second: Outcome,
        end: seq<Outcome>): seq<Call>
    requires 1 <= |end| <= 2
  {
    if error.Some? then EndCalls(calls, Failed, error.value, end) else TwiceCalls(calls, first, second, end)
  }

  lemma TwiceAlone(b: Body, v: seq<Body>, first: bool, w: seq<Body>, second: bool, x: seq<Body>)
    requires v != [] && b.state == v[|v| - 1].state == Processing
    requires StoredAlone(SetState(FinishedSuccessfully), b, v, first, w)
    requires w != [] && StoredAlone(SetState(FinishedSuccessfully), b, w, second, x)
    ensures !second && x == w && |w| == |v| + 1 && w[|v|] == FailedOr(v[|v| - 1], None)
  {
  }

  /** The calls of the two finishes. */
  function TwiceCalls(calls: seq<Call>, first: Outcome, second: Outcome, end: seq<Outcome>): seq<Call>
    requires 1 <= |end| <= 2
  {
    var finished := calls + [Call(SetState(FinishedSuccessfully), first)];
    var again := finished + [Call(SetState(FinishedSuccessfully), second)];
    if second.Errored? then EndCalls(again, Failed, STORE_ERROR, end) else again
  }

  /** The dataset is marked finished twice, each time from a fresh copy; the error of the first call is
      dropped. */
  method FinishTwice(db: Store, d: Document, ghost n: nat, ghost calls: seq<Call>)
    returns (ghost first: Outcome, ghost second: Outcome, ghost end: seq<Outcome>)
    requires db.Valid() && d.revision < |db.versions|
    modifies db
    ensures db.Valid() && old(db.versions) <= db.versions && EndOutcomes(end)
    ensures Carries(old(db.versions), db.versions, d.body, calls, TwiceCalls(calls, first, second, end))
    ensures db.errors == old(db.errors) + Fails(first) + Fails(second) + FailsIn(end)
    ensures Faultless(old(db.schedule)) ==> !first.Errored? && !second.Errored? && NoneErrored(end)
    ensures old(Steady(db, d, n, calls)) ==> Steady(db, d, n, TwiceCalls(calls, first, second, end))
    ensures old(Quiet(db, d)) && d.body.state == old(db.Last()).state == Processing ==>
              db.Last() == FailedOr(old(db.Last()), None) && |db.versions| == |old(db.versions)| + 1
  {
    end := [Lost, Lost];
    var updated, failed := UpdateCopy(db, d, SetState(FinishedSuccessfully), n, calls);
    first := OutcomeOf(updated, failed);
    ghost var stored, v := updated, db.versions;
    ghost var more := calls + [Call(SetState(FinishedSuccessfully), first)];
    updated, failed := UpdateCopy(db, d, SetState(FinishedSuccessfully), n, more);
    second := OutcomeOf(updated, failed);
    ghost var w, again := db.versions, more + [Call(SetState(FinishedSuccessfully), second)];
    ThenCarries(old(db.versions), v, w, d.body, calls, more, again);
    if old(Quiet(db, d)) && d.body.state == old(db.Last()).state == Processing {
      TwiceAlone(d.body, old(db.versions), stored, v, updated, db.versions);
    }
    if failed {
      end := End(db, d, Failed, STORE_ERROR, n, again);
      ThenCarries(old(db.versions), w, db.versions, d.body, calls, again, EndCalls(again, Failed, STORE_ERROR, end));
    }
  }

  /** SplitDatafile behind the claim: `setup` are the errors before the pipe stage, the other three those
      of its goroutines. */
  method SplitClaimed(db: Store, d: Document, setup: seq<Option<string>>, transformResult: Option<string>,
        testResult: Option<string>, trainResult: Option<string>, ghost n: nat, ghost calls: seq<Call>)
    returns (ghost first: Outcome, ghost second: Outcome, ghost end: seq<Outcome>)
    requires db.Valid() && d.revision < |db.versions|
    modifies db
    ensures db.Valid() && old(db.versions) <= db.versions && EndOutcomes(end)
    ensures Faultless(old(db.schedule)) ==> !first.Errored? && !second.Errored? && NoneErrored(end)
    ensures var error := FirstError(setup + [FirstError([transformResult, testResult, trainResult])]);
            && Carries(old(db.versions), db.versions, d.body, calls, SplitCalls(calls, error, first, second, end))
            && db.errors == old(db.errors) + Fails(first) + Fails(second) + FailsIn(end)
            && (old(Steady(db, d, n, calls)) ==> Steady(db, d, n, SplitCalls(calls, error, first, second, end)))
            && (old(Quiet(db, d)) && d.body.state == old(db.Last()).state == Processing ==>
                  && db.Last() == FailedOr(old(db.Last()), error)
                  && (error.None? ==> |db.versions| == |old(db.versions)| + 1))
  {
    first, second, end := Lost, Lost, [Lost, Lost];
    FirstOfConcat(setup, FirstError([transformResult, testResult, trainResult]));
    var error := RunStages(setup);
    if error.None? {
      error := RunStages([transformResult, testResult, trainResult]);
    }
    if error.Some? {
      end := End(db, d, Failed, error.value, n, calls);
      return;
    }
    first, second, end := FinishTwice(db, d, n, calls);
  }

  lemma SplitAlone(b: Body, v: seq<Body>, won: bool, claimed: seq<Body>, w: seq<Body>, error: Option<string>)
    requires v != [] && ClaimedAlone(b, v, won, claimed) && claimed <= w && (!won ==> w == claimed)
    requires won ==> w[|w| - 1] == FailedOr(claimed[|claimed| - 1], error)
    ensures RanAlone(b, v, w, FailedOr(v[|v| - 1], error))
  {
    if won { RanFromClaim(b, v, claimed, w, w[|w| - 1]); }
  }

  /** How the calls of a splitter run end. */
  datatype SplitRun = SplitRun(claim: Outcome, recorded: seq<Outcome>, first: Outcome, second: Outcome,
        end: seq<Outcome>)
  {
    predicate Unfailing() {
      !claim.Errored? && NoneErrored(recorded) && !first.Errored? && !second.Errored? && NoneErrored(end)
    }

    function Failures(): nat {
      Fails(claim) + FailsIn(recorded) + Fails(first) + Fails(second) + FailsIn(end)
    }
  }

  function SplitRunCalls(errors: seq<Option<string>>, run: SplitRun): seq<Call>
    requires 1 <= |run.recorded| <= 2 && 1 <= |run.end| <= 2
  {
    var first := ClaimCalls(run.claim, run.recorded);
    if run.claim.Won? then SplitCalls(first, FirstError(errors), run.first, run.second, run.end) else first
  }

  /** A splitter run, in any environment; `setup` are the errors before the pipe stage. If the store
      does not fail, no call of it does, and what it stored is what its calls won. Alone it ends Failed
      with the first error, or finishes the dataset with exactly one version although it calls
      FinishedSuccessfully twice. */
  method RunSplit(db: Store, d: Document, setup: seq<Option<string>>, transformResult: Option<string>,
        testResult: Option<string>, trainResult: Option<string>)
    returns (ghost run: SplitRun)
    requires db.Valid() && db.Coherent(d)
    modifies db, d
    ensures db.Valid() && old(db.versions) <= db.versions && EndOutcomes(run.recorded) && EndOutcomes(run.end)
    ensures Took(old(d.body), old(db.versions), db.versions, run.claim,
                 SplitRunCalls(setup + [FirstError([transformResult, testResult, trainResult])], run))
    ensures Faultless(old(db.schedule)) ==>
              run.Unfailing()
              && Backed(db, |old(db.own)|,
                     SplitRunCalls(setup + [FirstError([transformResult, testResult, trainResult])], run))
    ensures old(db.schedule) == [] ==>
              var error := FirstError(setup + [FirstError([transformResult, testResult, trainResult])]);
              && RanAlone(old(d.body), old(db.versions), db.versions, FailedOr(old(db.Last()), error))
              && (error.None? ==> |db.versions| <= |old(db.versions)| + 2)
    ensures db.errors == old(db.errors) + run.Failures()
  {
    ghost var errors := setup + [FirstError([transformResult, testResult, trainResult])];
    ghost var n, before, start := |db.own|, db.versions, d.body;
    var won;
    ghost var claim, recorded;
    won, claim, recorded := ClaimDocument(db, d);
    run := SplitRun(claim, recorded, Lost, Lost, [Lost, Lost]);
    ghost var claimed, b := db.versions, d.body;
    if won {
      ghost var calls := ClaimCalls(claim, recorded);
      ghost var first, second, end;
      first, second, end := SplitClaimed(db, d, setup, transformResult, testResult, trainResult, n, calls);
      run := SplitRun(claim, recorded, first, second, end);
      ghost var all := SplitCalls(calls, FirstError(errors), first, second, end);
      assert SplitRunCalls(errors, run) == all;
      TookFromClaim(start, before, claimed, db.versions, b, calls, all);
    }
    if old(db.schedule) == [] {
      SplitAlone(old(d.body), before, won, claimed, db.versions, FirstError(errors));
    }
  }

  /** A splitter run that won its claim and whose calls did not fail left its verdict in some version
      since, and the first error in some log, whatever other clients stored meanwhile. */
  lemma SplitIsStored(start: Body, v: seq<Body>, w: seq<Body>, errors: seq<Option<string>>, run: SplitRun)
    requires v != [] && EndOutcomes(run.recorded) && EndOutcomes(run.end) && run.claim.Won? && run.Unfailing()
    requires Took(start, v, w, run.claim, SplitRunCalls(errors, run))
    ensures exists from :: |v| <= from && IsClaim(w, from)
              && if FirstError(errors).Some?
                 then ShowsState(w, from, Failed) && ShowsLog(w, from, FirstError(errors).value)
                 else ShowsState(w, from, FinishedSuccessfully)
  {
    var calls := SplitRunCalls(errors, run);
    var from :| |v| <= from && IsClaim(w, from) && Effective(w, from, calls);
    if FirstError(errors).Some? {
      EndIsSeen(w, from, ClaimCalls(run.claim, run.recorded), Failed, FirstError(errors).value, run.end);
    } else {
      CallIsSeen(w, from, calls, Call(SetState(FinishedSuccessfully), run.first));
    }
  }

  /** The two calls at the end of a splitter run. */
  lemma FinishTwicePlays(job: Job, t: Trace, first: Outcome, second: Outcome, end: seq<Outcome>) returns (next: Trace)
    requires Playing(job, t) && job == DatasetSplit && EndOutcomes(end)
    requires t.progress.todo ==
             [Put(SetState(FinishedSuccessfully), Fork, Skip), Put(SetState(FinishedSuccessfully), Fork, Record)]
    ensures Playing(job, next) && next.progress.todo == [] && Reports(next.inputs) == Reports(t.inputs)
    ensures next.progress.calls == SplitCalls(t.progress.calls, None, first, second, end)
  {
    var finish := SetState(FinishedSuccessfully);
    assert t.progress.todo[1..] == [Put(finish, Fork, Record)];
    next := CallEnds(job, t, finish, first);
    next := LastPutPlays(job, next, finish, Fork, second, end);
  }

  lemma SplitGoesOn(job: Job, t: Trace, errors: seq<Option<string>>, first: Outcome, second: Outcome, end: seq<Outcome>)
    returns (next: Trace)
    requires Playing(job, t) && job == DatasetSplit && Reports(t.inputs) == [] && t.progress.todo == AfterClaim(job)
    requires |errors| == 4 && EndOutcomes(end)
    ensures Complete(job, next, errors)
    ensures next.progress.calls == SplitCalls(t.progress.calls, FirstError(errors), first, second, end)
  {
    var rest := [Put(SetState(FinishedSuccessfully), Fork, Skip), Put(SetState(FinishedSuccessfully), Fork, Record)];
    assert Program(DatasetSplit)[1..] == Works(4) + rest;
    next := StagesPlay(job, t, errors, rest);
    if FirstError(errors).Some? {
      next := EndPlays(job, next, Failed, FirstError(errors).value, [], end);
    } else {
      next := FinishTwicePlays(job, next, first, second, end);
    }
  }

  /** These are the calls of the program, whose last stage is the pipe stage. */
  lemma SplitPlays(errors: seq<Option<string>>, run: SplitRun) returns (t: Trace)
    requires |errors| == 4 && EndOutcomes(run.recorded) && EndOutcomes(run.end)
    ensures Complete(DatasetSplit, t, errors) && t.progress.calls == SplitRunCalls(errors, run)
  {
    t := ClaimPlays(DatasetSplit, run.claim, run.recorded);
    if run.claim.Won? { t := SplitGoesOn(DatasetSplit, t, errors, run.first, run.second, run.end); }
  }

  /** The calls after one download: none, or those that record its error. */
  function DownloadCalls(calls: seq<Call>, error: Option<string>, end: seq<Outcome>): seq<Call>
    requires 1 <= |end| <= 2
  {
    if error.Some? then EndCalls(calls, Failed, error.value, end) else calls
  }

  /** What the document looks like after a download: its error is recorded, and the run goes on. */
  function AfterDownload(b: Body, error: Option<string>): Body {
    if error.Some? then b.(state := Failed, log := error.value) else b
  }

  /** One of the two downloads. */
  method Download(db: Store, d: Document, error: Option<string>, ghost n: nat, ghost calls: seq<Call>)
    returns (ghost end: seq<Outcome>)
    requires db.Valid() && d.revision < |db.versions|
    modifies db
    ensures db.Valid() && old(db.versions) <= db.versions && EndOutcomes(end)
    ensures Carries(old(db.versions), db.versions, d.body, calls, DownloadCalls(calls, error, end))
    ensures db.errors == old(db.errors) + FailsIn(end)
    ensures Faultless(old(db.schedule)) ==> NoneErrored(end) && Faultless(db.schedule)
    ensures old(Steady(db, d, n, calls)) ==> Steady(db, d, n, DownloadCalls(calls, error, end))
    ensures old(Quiet(db, d)) && d.body.state == Processing ==>
              Quiet(db, d) && db.Last() == AfterDownload(old(db.Last()), error)
  {
    end := [Lost, Lost];
    if error.Some? {
      end := End(db, d, Failed, error.value, n, calls);
    }
  }

  /** The calls that finish a download, after those before. */
  function FinishCalls(calls: seq<Call>, finished: Outcome, end: seq<Outcome>): seq<Call>
    requires 1 <= |end| <= 2
  {
    var all := calls + [Call(SetState(FinishedSuccessfully), finished)];
    if finished.Errored? then EndCalls(all, Failed, STORE_ERROR, end) else all
  }

  /** The calls of a download job, after those behind its claim. */
  function FetchCalls(calls: seq<Call>, blobStore: Option<string>, training: Option<string>, testing: Option<string>,
                      trainingEnd: seq<Outcome>, testingEnd: seq<Outcome>, finished: Outcome, end: seq<Outcome>)
    : seq<Call>
    requires 1 <= |trainingEnd| <= 2 && 1 <= |testingEnd| <= 2 && 1 <= |end| <= 2
  {
    if blobStore.Some? then EndCalls(calls, Failed, blobStore.value, end)
    else FinishCalls(DownloadCalls(DownloadCalls(calls, training, trainingEnd), testing, testingEnd), finished, end)
  }

  /** What a download job that won its claim on b leaves behind. */
  function Fetched(b: Body, blobStore: Option<string>, training: Option<string>, testing: Option<string>): Body {
    if blobStore.Some? then b.(state := Failed, log := blobStore.value)
    else AfterDownload(AfterDownload(b, training), testing).(state := FinishedSuccessfully)
  }

  lemma FinishedAfterDownloads(b: Body, v: seq<Body>, updated: bool, w: seq<Body>)
    requires v != [] && b.state == Processing && v[|v| - 1].state != FinishedSuccessfully
    requires StoredAlone(SetState(FinishedSuccessfully), b, v, updated, w)
    ensures w != [] && w[|w| - 1] == v[|v| - 1].(state := FinishedSuccessfully)
  {
  }

  /** The two downloads, one after the other. */
  method DownloadBoth(db: Store, d: Document, training: Option<string>, testing: Option<string>, ghost n: nat,
        ghost calls: seq<Call>)
    returns (ghost trainingEnd: seq<Outcome>, ghost testingEnd: seq<Outcome>)
    requires db.Valid() && d.revision < |db.versions|
    modifies db
    ensures db.Valid() && old(db.versions) <= db.versions && EndOutcomes(trainingEnd) && EndOutcomes(testingEnd)
    ensures Carries(old(db.versions), db.versions, d.body, calls,
                    DownloadCalls(DownloadCalls(calls, training, trainingEnd), testing, testingEnd))
    ensures db.errors == old(db.errors) + FailsIn(trainingEnd) + FailsIn(testingEnd)
    ensures Faultless(old(db.schedule)) ==>
              NoneErrored(trainingEnd) && NoneErrored(testingEnd) && Faultless(db.schedule)
    ensures old(Steady(db, d, n, calls)) ==>
              Steady(db, d, n, DownloadCalls(DownloadCalls(calls, training, trainingEnd), testing, testingEnd))
    ensures old(Quiet(db, d)) && d.body.state == Processing ==>
              Quiet(db, d) && db.Last() == AfterDownload(AfterDownload(old(db.Last()), training), testing)
  {
    trainingEnd := Download(db, d, training, n, calls);
    ghost var v, more := db.versions, DownloadCalls(calls, training, trainingEnd);
    testingEnd := Download(db, d, testing, n, more);
    ThenCarries(old(db.versions), v, db.versions, d.body, calls, more, DownloadCalls(more, testing, testingEnd));
  }

  /** The end of a download that opened the blob store. */
  method FinishDownload(db: Store, d: Document, ghost n: nat, ghost calls: seq<Call>)
    returns (ghost finished: Outcome, ghost end: seq<Outcome>)
    requires db.Valid() && d.revision < |db.versions|
    modifies db
    ensures db.Valid() && old(db.versions) <= db.versions && EndOutcomes(end)
    ensures Carries(old(db.versions), db.versions, d.body, calls, FinishCalls(calls, finished, end))
    ensures db.errors == old(db.errors) + Fails(finished) + FailsIn(end)
    ensures Faultless(old(db.schedule)) ==> !finished.Errored? && NoneErrored(end)
    ensures old(Steady(db, d, n, calls)) ==> Steady(db, d, n, FinishCalls(calls, finished, end))
    ensures old(Quiet(db, d)) && d.body.state == Processing && old(db.Last()).state != FinishedSuccessfully ==>
              db.Last() == old(db.Last()).(state := FinishedSuccessfully)
  {
    end := [Lost, Lost];
    var updated, failed := UpdateCopy(db, d, SetState(FinishedSuccessfully), n, calls);
    finished := OutcomeOf(updated, failed);
    if old(Quiet(db, d)) && d.body.state == Processing && old(db.Last()).state != FinishedSuccessfully {
      FinishedAfterDownloads(d.body, old(db.versions), updated, db.versions);
    }
    if failed {
      ghost var v, more := db.versions, calls + [Call(SetState(FinishedSuccessfully), finished)];
      end := End(db, d, Failed, STORE_ERROR, n, more);
      ThenCarries(old(db.versions), v, db.versions, d.body, calls, more, EndCalls(more, Failed, STORE_ERROR, end));
    }
  }

  /** DownloadDatafiles behind the claim. */
  method DownloadDatafiles(db: Store, d: Document, blobStore: Option<string>, training: Option<string>,
        testing: Option<string>, ghost n: nat, ghost calls: seq<Call>)
    returns (ghost trainingEnd: seq<Outcome>, ghost testingEnd: seq<Outcome>, ghost finished: Outcome,
          ghost end: seq<Outcome>)
    requires db.Valid() && d.revision < |db.versions|
    modifies db
    ensures db.Valid() && old(db.versions) <= db.versions
    ensures EndOutcomes(trainingEnd) && EndOutcomes(testingEnd) && EndOutcomes(end)
    ensures Carries(old(db.versions), db.versions, d.body, calls,
                    FetchCalls(calls, blobStore, training, testing, trainingEnd, testingEnd, finished, end))
    ensures db.errors
         == old(db.errors) + FailsIn(trainingEnd) + FailsIn(testingEnd) + Fails(finished) + FailsIn(end)
    ensures Faultless(old(db.schedule)) ==>
              NoneErrored(trainingEnd) && NoneErrored(testingEnd) && !finished.Errored? && NoneErrored(end)
    ensures old(Steady(db, d, n, calls)) ==>
              Steady(db, d, n, FetchCalls(calls, blobStore, training, testing, trainingEnd, testingEnd, finished, end))
    ensures old(Quiet(db, d)) && d.body.state == old(db.Last()).state == Processing ==>
              db.Last() == Fetched(old(db.Last()), blobStore, training, testing)
  {
    trainingEnd, testingEnd, finished := [Lost, Lost], [Lost, Lost], Lost;
    if blobStore.Some? {
      end := End(db, d, Failed, blobStore.value, n, calls);
    } else {
      trainingEnd, testingEnd := DownloadBoth(db, d, training, testing, n, calls);
      ghost var more := DownloadCalls(DownloadCalls(calls, training, trainingEnd), testing, testingEnd);
      ghost var v := db.versions;
      finished, end := FinishDownload(db, d, n, more);
      ThenCarries(old(db.versions), v, db.versions, d.body, calls, more, FinishCalls(more, finished, end));
    }
  }

  lemma FetchedAlone(quiet: bool, b: Body, v: seq<Body>, won: bool, claimed: seq<Body>, w: seq<Body>,
                     blobStore: Option<string>, training: Option<string>, testing: Option<string>)
    requires v != [] && claimed != [] && claimed <= w && (!won ==> w == claimed)
    requires quiet ==> ClaimedAlone(b, v, won, claimed)
    requires quiet && won ==> w[|w| - 1] == Fetched(claimed[|claimed| - 1], blobStore, training, testing)
    ensures quiet ==> RanAlone(b, v, w, Fetched(v[|v| - 1], blobStore, training, testing))
  {
    if quiet && won {
      RanFromClaim(b, v, claimed, w, w[|w| - 1]);
      assert Fetched(v[|v| - 1].(state := Processing), blobStore, training, testing) ==
            Fetched(v[|v| - 1], blobStore, training, testing);
    }
  }

  /** On such a store the dataset ends Failed if and only if the blob store cannot be opened: a failed
      download leaves no more than its error in the log of the finished dataset. */
  lemma FetchedFailedIff(b: Body, blobStore: Option<string>, training: Option<string>, testing: Option<string>)
    ensures var c := Fetched(b, blobStore, training, testing);
            && (c.state == Failed <==> blobStore.Some?)
            && (blobStore.None? ==>
                  c == b.(state := FinishedSuccessfully,
                          log := if testing.Some? then testing.value
                                 else if training.Some? then training.value else b.log))
  {
  }

  /** How the calls of a download run end. */
  datatype DownloadRun = DownloadRun(claim: Outcome, recorded: seq<Outcome>, trainingEnd: seq<Outcome>,
                                     testingEnd: seq<Outcome>, finished: Outcome, end: seq<Outcome>)
  {
    predicate Unfailing() {
      && !claim.Errored? && NoneErrored(recorded) && NoneErrored(trainingEnd) && NoneErrored(testingEnd)
      && !finished.Errored? && NoneErrored(end)
    }

    function Failures(): nat {
      Fails(claim) + FailsIn(recorded) + FailsIn(trainingEnd) + FailsIn(testingEnd) + Fails(finished) + FailsIn(end)
    }
  }

  predicate Ended(run: DownloadRun) {
    EndOutcomes(run.recorded) && EndOutcomes(run.trainingEnd) && EndOutcomes(run.testingEnd) && EndOutcomes(run.end)
  }

  function DownloadRunCalls(blobStore: Option<string>, training: Option<string>, testing: Option<string>,
        run: DownloadRun): seq<Call>
    requires Ended(run)
  {
    var first := ClaimCalls(run.claim, run.recorded);
    if run.claim.Won? then
      FetchCalls(first, blobStore, training, testing, run.trainingEnd, run.testingEnd, run.finished, run.end)
    else first
  }

  /** The rest of a run that won its claim, which was made on the last of the versions `before`. */
  method DownloadClaimed(db: Store, d: Document, blobStore: Option<string>, training: Option<string>,
        testing: Option<string>, ghost n: nat, ghost start: Body, ghost before: seq<Body>, ghost claim: Outcome,
        ghost recorded: seq<Outcome>)
    returns (ghost run: DownloadRun)
    requires db.Valid() && d.revision < |db.versions| && claim.Won? && EndOutcomes(recorded) && before != []
    requires Begun(before, db.versions, d.body, ClaimCalls(claim, recorded))
    modifies db
    ensures db.Valid() && old(db.versions) <= db.versions && Ended(run)
    ensures run.claim == claim && run.recorded == recorded
    ensures db.errors == old(db.errors) + run.Failures() - Fails(claim) - FailsIn(recorded)
    ensures Took(start, before, db.versions, claim, DownloadRunCalls(blobStore, training, testing, run))
    ensures Faultless(old(db.schedule)) && !claim.Errored? && NoneErrored(recorded) ==> run.Unfailing()
    ensures old(Steady(db, d, n, ClaimCalls(claim, recorded))) ==>
              Backed(db, n, DownloadRunCalls(blobStore, training, testing, run))
    ensures old(Quiet(db, d)) && d.body.state == old(db.Last()).state == Processing ==>
              db.Last() == Fetched(old(db.Last()), blobStore, training, testing)
  {
    ghost var trainingEnd, testingEnd, finished, end;
    ghost var calls := ClaimCalls(claim, recorded);
    trainingEnd, testingEnd, finished, end := DownloadDatafiles(db, d, blobStore, training, testing, n, calls);
    run := DownloadRun(claim, recorded, trainingEnd, testingEnd, finished, end);
    ghost var all := FetchCalls(calls, blobStore, training, testing, trainingEnd, testingEnd, finished, end);
    assert DownloadRunCalls(blobStore, training, testing, run) == all;
    TookFromClaim(start, before, old(db.versions), db.versions, d.body, calls, all);
  }

  /** A download run, in any environment. If the store does not fail, no call of it does, and what it
      stored is what its calls won; alone it leaves exactly `Fetched`. */
  method RunDownload(db: Store, d: Document, blobStore: Option<string>, training: Option<string>,
        testing: Option<string>)
    returns (ghost run: DownloadRun)
    requires db.Valid() && db.Coherent(d)
    modifies db, d
    ensures db.Valid() && old(db.versions) <= db.versions && Ended(run)
    ensures Took(old(d.body), old(db.versions), db.versions, run.claim,
                 DownloadRunCalls(blobStore, training, testing, run))
    ensures Faultless(old(db.schedule)) ==>
              run.Unfailing() && Backed(db, |old(db.own)|, DownloadRunCalls(blobStore, training, testing, run))
    ensures old(db.schedule) == [] ==>
              RanAlone(old(d.body), old(db.versions), db.versions,
                    Fetched(old(db.Last()), blobStore, training, testing))
    ensures db.errors == old(db.errors) + run.Failures()
  {
    ghost var n, before, start := |db.own|, db.versions, d.body;
    var won;
    ghost var claim, recorded;
    won, claim, recorded := ClaimDocument(db, d);
    run := DownloadRun(claim, recorded, [Lost, Lost], [Lost, Lost], Lost, [Lost, Lost]);
    ghost var claimed := db.versions;
    if won {
      run := DownloadClaimed(db, d, blobStore, training, testing, n, start, before, claim, recorded);
    }
    FetchedAlone(old(db.schedule) == [], old(d.body), before, won, claimed, db.versions, blobStore, training, testing);
  }

  /** What some version has from index `from` on, after a download that claimed there. */
  ghost predicate FetchedSince(v: seq<Body>, from: nat, blobStore: Option<string>, training: Option<string>,
        testing: Option<string>) {
    if blobStore.Some? then ShowsState(v, from, Failed) && ShowsLog(v, from, blobStore.value)
    else
      && ShowsState(v, from, FinishedSuccessfully)
      && (training.Some? ==> ShowsState(v, from, Failed) && ShowsLog(v, from, training.value))
      && (testing.Some? ==> ShowsState(v, from, Failed) && ShowsLog(v, from, testing.value))
  }

  lemma EffectivePrefix(v: seq<Body>, from: nat, calls: seq<Call>, more: seq<Call>)
    requires Effective(v, from, more) && calls <= more
    ensures Effective(v, from, calls)
  {
    forall i | 0 <= i < |calls| ensures TookEffect(v, from, calls, i) {
      assert TookEffect(v, from, more, i) && more[i] == calls[i];
    }
  }

  /** A download that won its claim and whose calls did not fail left its verdict and every error of its
      downloads in some version since, whatever other clients stored meanwhile. */
  lemma DownloadIsStored(start: Body, v: seq<Body>, w: seq<Body>, blobStore: Option<string>, training: Option<string>,
                         testing: Option<string>, run: DownloadRun)
    requires v != [] && Ended(run) && run.claim.Won? && run.Unfailing()
    requires Took(start, v, w, run.claim, DownloadRunCalls(blobStore, training, testing, run))
    ensures exists from :: |v| <= from && IsClaim(w, from) && FetchedSince(w, from, blobStore, training, testing)
  {
    var first, all := ClaimCalls(run.claim, run.recorded), DownloadRunCalls(blobStore, training, testing, run);
    var from :| |v| <= from && IsClaim(w, from) && Effective(w, from, all);
    if blobStore.Some? {
      EndIsSeen(w, from, first, Failed, blobStore.value, run.end);
    } else {
      CallIsSeen(w, from, all, Call(SetState(FinishedSuccessfully), run.finished));
      var second := DownloadCalls(first, training, run.trainingEnd);
      var third := DownloadCalls(second, testing, run.testingEnd);
      assert second <= third <= all;
      EffectivePrefix(w, from, second, all);
      EffectivePrefix(w, from, third, all);
      if training.Some? { EndIsSeen(w, from, first, Failed, training.value, run.trainingEnd); }
      if testing.Some? { EndIsSeen(w, from, second, Failed, testing.value, run.testingEnd); }
    }
  }

  lemma DownloadStagePlays(job: Job, t: Trace, error: Option<string>, end: seq<Outcome>, rest: seq<Op>)
    returns (next: Trace)
    requires Playing(job, t) && !job.Datafile? && t.progress.todo == [Attempt] + rest && StartsPlain(rest)
             && EndOutcomes(end)
    ensures Playing(job, next) && next.progress.todo == rest && Reports(next.inputs) == Reports(t.inputs) + [error]
    ensures next.progress.calls == DownloadCalls(t.progress.calls, error, end)
  {
    assert t.progress.todo[1..] == rest;
    next := StageEnds(job, t, error);
    if error.Some? { next := EndPlays(job, next, Failed, error.value, rest, end); }
  }

  /** A download that opened the blob store. */
  lemma OpenedPlays(job: Job, t: Trace, training: Option<string>, testing: Option<string>,
                    trainingEnd: seq<Outcome>, testingEnd: seq<Outcome>, finished: Outcome, end: seq<Outcome>)
    returns (next: Trace)
    requires Playing(job, t) && job == DatasetDownload
    requires t.progress.todo == [Attempt] + ([Attempt] + [Put(SetState(FinishedSuccessfully), Fork, Record)])
    requires EndOutcomes(trainingEnd) && EndOutcomes(testingEnd) && EndOutcomes(end)
    ensures Playing(job, next) && next.progress.todo == []
    ensures Reports(next.inputs) == Reports(t.inputs) + [training] + [testing]
    ensures next.progress.calls
         == FinishCalls(DownloadCalls(DownloadCalls(t.progress.calls, training, trainingEnd), testing, testingEnd),
                        finished, end)
  {
    var finish := [Put(SetState(FinishedSuccessfully), Fork, Record)];
    next := DownloadStagePlays(job, t, training, trainingEnd, [Attempt] + finish);
    next := DownloadStagePlays(job, next, testing, testingEnd, finish);
    next := LastPutPlays(job, next, SetState(FinishedSuccessfully), Fork, finished, end);
  }

  lemma DownloadProgram()
    ensures AfterClaim(DatasetDownload)
         == [Work] + ([Attempt] + ([Attempt] + [Put(SetState(FinishedSuccessfully), Fork, Record)]))
  {
  }

  lemma FetchGoesOn(job: Job, t: Trace, blobStore: Option<string>, training: Option<string>, testing: Option<string>,
                   trainingEnd: seq<Outcome>, testingEnd: seq<Outcome>, finished: Outcome, end: seq<Outcome>)
    returns (next: Trace)
    requires Playing(job, t) && job == DatasetDownload && Reports(t.inputs) == [] && t.progress.todo == AfterClaim(job)
    requires EndOutcomes(trainingEnd) && EndOutcomes(testingEnd) && EndOutcomes(end)
    ensures Complete(job, next, [blobStore, training, testing])
    ensures next.progress.calls
         == FetchCalls(t.progress.calls, blobStore, training, testing, trainingEnd, testingEnd, finished, end)
  {
    var rest := [Attempt] + ([Attempt] + [Put(SetState(FinishedSuccessfully), Fork, Record)]);
    DownloadProgram();
    next := WorkEnds(job, t, rest, blobStore);
    if blobStore.Some? {
      next := EndPlays(job, next, Failed, blobStore.value, [], end);
    } else {
      next := OpenedPlays(job, next, training, testing, trainingEnd, testingEnd, finished, end);
    }
  }

  /** These are the calls of the program. */
  lemma DownloadPlays(blobStore: Option<string>, training: Option<string>, testing: Option<string>, run: DownloadRun)
    returns (t: Trace)
    requires Ended(run)
    ensures Complete(DatasetDownload, t, [blobStore, training, testing])
    ensures t.progress.calls == DownloadRunCalls(blobStore, training, testing, run)
  {
    t := ClaimPlays(DatasetDownload, run.claim, run.recorded);
    if run.claim.Won? {
      t := FetchGoesOn(DatasetDownload, t, blobStore, training, testing, run.trainingEnd, run.testingEnd,
            run.finished, run.end);
    }
  }

  /** AddArtifactUrls: one update of the dataset that the endpoint has just inserted. */
  method AddArtifactUrls(db: Store, d: Document, training: string, testing: string)
    returns (failed: bool, ghost outcome: Outcome)
    requires db.Valid() && db.Coherent(d)
    modifies db, d
    ensures db.Valid() && old(db.versions) <= db.versions
    ensures !failed ==> d.body.trainingUrl == training && d.body.testUrl == testing
    ensures !failed && !Done(SetArtifactUrls(training, testing), old(d.body)) ==>
              Seen(db.versions, |old(db.versions)| - 1, SetArtifactUrls(training, testing))
    ensures Faultless(old(db.schedule)) ==>
              && !failed && !outcome.Errored?
              && Backed(db, |old(db.own)|, [Call(SetArtifactUrls(training, testing), outcome)])
    ensures old(db.schedule) == [] ==>
              StoredAlone(SetArtifactUrls(training, testing), old(d.body), old(db.versions), outcome.Won?, db.versions)
  {
    ghost var n := |db.own|;
    assert db.own[n..] == [];
    var updated;
    updated, failed := UpdateDocument(db, d, SetArtifactUrls(training, testing), n, []);
    outcome := OutcomeOf(updated, failed);
    ghost var calls := [Call(SetArtifactUrls(training, testing), outcome)];
    assert [] + calls == calls;
    if !failed && !Done(SetArtifactUrls(training, testing), old(d.body)) {
      assert Poised(old(db.versions), |old(db.versions)| - 1, old(d.body), [], SetArtifactUrls(training, testing));
      assert TookEffect(db.versions, |old(db.versions)| - 1, calls, 0);
    }
  }

  /** This is the call of the program. */
  lemma ArtifactWriterPlays(training: string, testing: string, outcome: Outcome) returns (t: Trace)
    ensures Complete(ArtifactWriter(training, testing), t, [])
    ensures t.progress.calls == [Call(SetArtifactUrls(training, testing), outcome)]
  {
    var job := ArtifactWriter(training, testing);
    t := CallEnds(job, Start(job), SetArtifactUrls(training, testing), outcome);
  }
}
