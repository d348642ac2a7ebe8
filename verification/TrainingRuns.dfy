/** The Run method of a training job. */
module TrainingRuns {
  import opened Documents
  import opened Protocol
  import opened Scripts
  import opened RetryLoop
  import opened Updates
  import opened Traces

  /** What a training run that won its claim on b0 leaves behind. */
  function Trained(b0: Body, labels: seq<string>, modelUrl: string, extract: Option<string>,
        caffe: Option<string>): Body {
    if extract.Some? then b0.(state := Failed, log := extract.value)
    else if caffe.Some? then b0.(state := Failed, log := caffe.value, labels := Some(labels))
    else b0.(state := FinishedSuccessfully, log := "", labels := Some(labels), modelUrl := modelUrl)
  }

  /** A receiver right after its claim: only locally assigned fields differ from the document. */
  predicate JustClaimed(b: Body, last: Body) {
    last.state == Processing && b == last.(stdOutUrl := b.stdOutUrl, stdErrUrl := b.stdErrUrl, sourceUrl := b.sourceUrl)
  }

  /** What the second half of such a run leaves of the document. */
  function Modelled(last: Body, modelUrl: string, caffe: Option<string>): Body {
    if caffe.Some? then last.(state := Failed, log := caffe.value)
    else last.(state := FinishedSuccessfully, log := "", modelUrl := modelUrl)
  }

  /** The calls of runCaffe and of the end of the run. */
  function CaffeCalls(calls: seq<Call>, modelUrl: string, caffe: Option<string>, modelled: Outcome,
        end: seq<Outcome>): seq<Call>
    requires 1 <= |end| <= 2
  {
    if caffe.Some? then EndCalls(calls, Failed, caffe.value, end)
    else
      var made := calls + [Call(SetModelUrl(modelUrl), modelled)];
      if modelled.Errored? then EndCalls(made, Failed, STORE_ERROR, end)
      else EndCalls(made, FinishedSuccessfully, "", end)
  }

  /** The calls of a training run, after those behind its claim; how its stages and calls end is given. */
  function TrainingCalls(calls: seq<Call>, labels: seq<string>, modelUrl: string, extract: Option<string>,
                         labelled: Outcome, caffe: Option<string>, modelled: Outcome, end: seq<Outcome>): seq<Call>
    requires 1 <= |end| <= 2
  {
    if extract.Some? then EndCalls(calls, Failed, extract.value, end)
    else
      var first := calls + [Call(SetLabels(Some(labels)), labelled)];
      if labelled.Errored? then EndCalls(first, Failed, STORE_ERROR, end)
      else CaffeCalls(first, modelUrl, caffe, modelled, end)
  }

  /** runCaffe, and the end of the run. */
  method CaffeAndEnd(db: Store, j: Document, modelUrl: string, caffe: Option<string>, ghost n: nat,
        ghost calls: seq<Call>)
    returns (ghost modelled: Outcome, ghost end: seq<Outcome>)
    requires db.Valid() && j.revision < |db.versions|
    modifies db
    ensures db.Valid() && old(db.versions) <= db.versions && EndOutcomes(end)
    ensures Carries(old(db.versions), db.versions, j.body, calls, CaffeCalls(calls, modelUrl, caffe, modelled, end))
    ensures db.errors == old(db.errors) + Fails(modelled) + FailsIn(end)
    ensures Faultless(old(db.schedule)) ==> !modelled.Errored? && NoneErrored(end)
    ensures old(Steady(db, j, n, calls)) ==> Steady(db, j, n, CaffeCalls(calls, modelUrl, caffe, modelled, end))
    ensures old(Quiet(db, j)) && j.body.state == Processing && AgreeOn(ModelField, j.body, old(db.Last())) ==>
              db.Last() == Modelled(old(db.Last()), modelUrl, caffe)
  {
    ghost var v := db.versions;
    var error;
    error, modelled := WorkAndUpdate(db, j, caffe, SetModelUrl(modelUrl), n, calls);
    ghost var w, made := db.versions, if caffe.Some? then calls else calls + [Call(SetModelUrl(modelUrl), modelled)];
    if error.Some? {
      end := End(db, j, Failed, error.value, n, made);
      ThenCarries(v, w, db.versions, j.body, calls, made, EndCalls(made, Failed, error.value, end));
    } else {
      end := End(db, j, FinishedSuccessfully, "", n, made);
      ThenCarries(v, w, db.versions, j.body, calls, made, EndCalls(made, FinishedSuccessfully, "", end));
    }
  }

  /** A training run behind its claim. */
  method TrainClaimed(db: Store, j: Document, labels: seq<string>, modelUrl: string, extract: Option<string>,
        caffe: Option<string>, ghost n: nat, ghost calls: seq<Call>)
    returns (ghost labelled: Outcome, ghost modelled: Outcome, ghost end: seq<Outcome>)
    requires db.Valid() && j.revision < |db.versions|
    modifies db
    ensures db.Valid() && old(db.versions) <= db.versions && EndOutcomes(end)
    ensures Carries(old(db.versions), db.versions, j.body, calls,
                    TrainingCalls(calls, labels, modelUrl, extract, labelled, caffe, modelled, end))
    ensures db.errors == old(db.errors) + Fails(labelled) + Fails(modelled) + FailsIn(end)
    ensures Faultless(old(db.schedule)) ==> !labelled.Errored? && !modelled.Errored? && NoneErrored(end)
    ensures old(Steady(db, j, n, calls)) ==>
              Steady(db, j, n, TrainingCalls(calls, labels, modelUrl, extract, labelled, caffe, modelled, end))
    ensures old(Quiet(db, j)) && JustClaimed(j.body, old(db.Last())) ==>
              db.Last() == Trained(old(db.Last()), labels, modelUrl, extract, caffe)
  {
    ghost var v := db.versions;
    var error;
    modelled := Lost;
    error, labelled := WorkAndUpdate(db, j, extract, SetLabels(Some(labels)), n, calls);
    ghost var w := db.versions;
    ghost var made := if extract.Some? then calls else calls + [Call(SetLabels(Some(labels)), labelled)];
    if error.Some? {
      end := End(db, j, Failed, error.value, n, made);
      ThenCarries(v, w, db.versions, j.body, calls, made, EndCalls(made, Failed, error.value, end));
    } else {
      modelled, end := CaffeAndEnd(db, j, modelUrl, caffe, n, made);
      ThenCarries(v, w, db.versions, j.body, calls, made, CaffeCalls(made, modelUrl, caffe, modelled, end));
    }
  }

  /** How the calls of a training run end. */
  datatype TrainingRun = TrainingRun(claim: Outcome, recorded: seq<Outcome>, labelled: Outcome, modelled: Outcome,
        end: seq<Outcome>)
  {
    predicate Unfailing() {
      !claim.Errored? && NoneErrored(recorded) && !labelled.Errored? && !modelled.Errored? && NoneErrored(end)
    }

    function Failures(): nat {
      Fails(claim) + FailsIn(recorded) + Fails(labelled) + Fails(modelled) + FailsIn(end)
    }
  }

  function TrainingRunCalls(labels: seq<string>, modelUrl: string, extract: Option<string>, caffe: Option<string>,
        run: TrainingRun): seq<Call>
    requires 1 <= |run.recorded| <= 2 && 1 <= |run.end| <= 2
  {
    var first := ClaimCalls(run.claim, run.recorded);
    if run.claim.Won? then
      TrainingCalls(first, labels, modelUrl, extract, run.labelled, caffe, run.modelled, run.end)
    else first
  }

  lemma CallsOfWonRun(labels: seq<string>, modelUrl: string, extract: Option<string>, caffe: Option<string>,
        run: TrainingRun)
    requires run.claim.Won? && EndOutcomes(run.recorded) && EndOutcomes(run.end)
    ensures TrainingRunCalls(labels, modelUrl, extract, caffe, run) ==
              TrainingCalls(ClaimCalls(run.claim, run.recorded), labels, modelUrl, extract, run.labelled, caffe,
                            run.modelled, run.end)
  {
  }

  /** The run behind its claim: it assigns the output URLs to the receiver and goes on. */
  method AssignAndTrain(db: Store, j: Document, labels: seq<string>, modelUrl: string, outUrl: string, errUrl: string,
        extract: Option<string>, caffe: Option<string>, ghost n: nat, ghost start: Body,
        ghost before: seq<Body>, ghost claim: Outcome, ghost recorded: seq<Outcome>)
    returns (ghost run: TrainingRun)
    requires db.Valid() && j.revision < |db.versions| - 1 && claim.Won? && EndOutcomes(recorded) && before != []
    requires Begun(before, db.versions, j.body, ClaimCalls(claim, recorded))
    modifies db, j
    ensures db.Valid() && old(db.versions) <= db.versions
    ensures run.claim == claim && run.recorded == recorded && EndOutcomes(run.end)
    ensures j.body.stdOutUrl == outUrl && j.body.stdErrUrl == errUrl
    ensures Took(start, before, db.versions, claim, TrainingRunCalls(labels, modelUrl, extract, caffe, run))
    ensures db.errors == old(db.errors) + Fails(run.labelled) + Fails(run.modelled) + FailsIn(run.end)
    ensures Faultless(old(db.schedule)) ==>
              !run.labelled.Errored? && !run.modelled.Errored? && NoneErrored(run.end)
    ensures old(Steady(db, j, n, ClaimCalls(claim, recorded))) ==>
              Backed(db, n, TrainingRunCalls(labels, modelUrl, extract, caffe, run))
    ensures old(Quiet(db, j)) && old(j.body) == old(db.Last()) && old(j.body).state == Processing ==>
              db.Last() == Trained(old(db.Last()), labels, modelUrl, extract, caffe)
  {
    ghost var calls := ClaimCalls(claim, recorded);
    j.body := j.body.(stdOutUrl := outUrl, stdErrUrl := errUrl);
    assert old(Steady(db, j, n, calls)) ==> Steady(db, j, n, calls);
    assert old(Quiet(db, j)) ==> Quiet(db, j);
    ghost var labelled, modelled, end;
    labelled, modelled, end := TrainClaimed(db, j, labels, modelUrl, extract, caffe, n, calls);
    run := TrainingRun(claim, recorded, labelled, modelled, end);
    CallsOfWonRun(labels, modelUrl, extract, caffe, run);
    ghost var all := TrainingRunCalls(labels, modelUrl, extract, caffe, run);
    AssignedCarries(old(db.versions), db.versions, old(j.body), j.body, calls, all);
    TookFromClaim(start, before, old(db.versions), db.versions, old(j.body), calls, all);
  }

  lemma TrainedAlone(b: Body, v: seq<Body>, won: bool, claimed: seq<Body>, w: seq<Body>, labels: seq<string>,
        modelUrl: string, extract: Option<string>, caffe: Option<string>)
    requires v != [] && ClaimedAlone(b, v, won, claimed) && claimed <= w && (!won ==> w == claimed)
    requires won ==> w[|w| - 1] == Trained(claimed[|claimed| - 1], labels, modelUrl, extract, caffe)
    ensures RanAlone(b, v, w, Trained(v[|v| - 1], labels, modelUrl, extract, caffe))
  {
    if won { RanFromClaim(b, v, claimed, w, w[|w| - 1]); }
  }

  /** A training run, in any environment. If the store does not fail, no call of it does, and what it
      stored is what its calls won; alone it leaves exactly `Trained`, so that the assigned URLs are not stored. */
  method RunTraining(db: Store, j: Document, labels: seq<string>, modelUrl: string, outUrl: string, errUrl: string,
                     extract: Option<string>, caffe: Option<string>)
    returns (ghost run: TrainingRun)
    requires db.Valid() && db.Coherent(j)
    modifies db, j
    ensures db.Valid() && old(db.versions) <= db.versions && EndOutcomes(run.recorded) && EndOutcomes(run.end)
    ensures Took(old(j.body), old(db.versions), db.versions, run.claim,
                 TrainingRunCalls(labels, modelUrl, extract, caffe, run))
    ensures Faultless(old(db.schedule)) ==>
              run.Unfailing() && Backed(db, |old(db.own)|, TrainingRunCalls(labels, modelUrl, extract, caffe, run))
    ensures old(db.schedule) == [] ==>
              RanAlone(old(j.body), old(db.versions), db.versions,
                    Trained(old(db.Last()), labels, modelUrl, extract, caffe))
    ensures db.errors == old(db.errors) + run.Failures()
    ensures run.claim.Won? ==> j.body.stdOutUrl == outUrl && j.body.stdErrUrl == errUrl
  {
    ghost var n, before, start := |db.own|, db.versions, j.body;
    var won;
    ghost var claim, recorded;
    won, claim, recorded := ClaimDocument(db, j);
    run := TrainingRun(claim, recorded, Lost, Lost, [Lost, Lost]);
    ghost var claimed := db.versions;
    if won {
      run := AssignAndTrain(db, j, labels, modelUrl, outUrl, errUrl, extract, caffe, n, start, before, claim, recorded);
    }
    if old(db.schedule) == [] {
      TrainedAlone(old(j.body), old(db.versions), won, claimed, db.versions, labels, modelUrl, extract, caffe);
    }
  }

  /** What some version has from index `from` on, after a training run that claimed there. */
  ghost predicate StoredSince(v: seq<Body>, from: nat, labels: seq<string>, modelUrl: string, extract: Option<string>,
        caffe: Option<string>) {
    if extract.Some? then ShowsState(v, from, Failed) && ShowsLog(v, from, extract.value)
    else
      && (exists k :: from <= k < |v| && v[k].labels == Some(labels))
      && if caffe.Some? then ShowsState(v, from, Failed) && ShowsLog(v, from, caffe.value)
         else
           && (exists k :: from <= k < |v| && v[k].modelUrl == modelUrl)
           && ShowsState(v, from, FinishedSuccessfully) && ShowsLog(v, from, "")
  }

  /** A training run that won its claim and whose calls did not fail stored everything it is for,
      whatever other clients stored meanwhile. */
  lemma TrainingIsStored(start: Body, v: seq<Body>, w: seq<Body>, labels: seq<string>, modelUrl: string,
                         extract: Option<string>, caffe: Option<string>, run: TrainingRun)
    requires v != [] && EndOutcomes(run.recorded) && EndOutcomes(run.end) && run.claim.Won? && run.Unfailing()
    requires Took(start, v, w, run.claim, TrainingRunCalls(labels, modelUrl, extract, caffe, run))
    ensures exists from :: |v| <= from && IsClaim(w, from) && StoredSince(w, from, labels, modelUrl, extract, caffe)
  {
    var calls := TrainingRunCalls(labels, modelUrl, extract, caffe, run);
    var from :| |v| <= from && IsClaim(w, from) && Effective(w, from, calls);
    if extract.None? {
      CallIsSeen(w, from, calls, Call(SetLabels(Some(labels)), run.labelled));
      if caffe.None? { CallIsSeen(w, from, calls, Call(SetModelUrl(modelUrl), run.modelled)); }
    }
    TrainingEndIsSeen(w, from, labels, modelUrl, extract, caffe, run);
  }

  lemma TrainingEndIsSeen(w: seq<Body>, from: nat, labels: seq<string>, modelUrl: string, extract: Option<string>,
                          caffe: Option<string>, run: TrainingRun)
    requires EndOutcomes(run.recorded) && EndOutcomes(run.end) && run.claim.Won? && run.Unfailing()
    requires Effective(w, from, TrainingRunCalls(labels, modelUrl, extract, caffe, run))
    ensures if extract.Some? then ShowsState(w, from, Failed) && ShowsLog(w, from, extract.value)
            else if caffe.Some? then ShowsState(w, from, Failed) && ShowsLog(w, from, caffe.value)
            else ShowsState(w, from, FinishedSuccessfully) && ShowsLog(w, from, "")
  {
    var first := ClaimCalls(run.claim, run.recorded);
    var second := first + [Call(SetLabels(Some(labels)), run.labelled)];
    var third := second + [Call(SetModelUrl(modelUrl), run.modelled)];
    if extract.Some? {
      EndIsSeen(w, from, first, Failed, extract.value, run.end);
    } else if caffe.Some? {
      EndIsSeen(w, from, second, Failed, caffe.value, run.end);
    } else {
      EndIsSeen(w, from, third, FinishedSuccessfully, "", run.end);
    }
  }

  /** What is left of a training job's program behind its claim. */
  function TrainingRest(labels: seq<string>, modelUrl: string): seq<Op> {
    [Work, Put(SetLabels(Some(labels)), Fork, Record)] + CaffeRest(modelUrl)
  }

  function CaffeRest(modelUrl: string): seq<Op> {
    [Work, Put(SetModelUrl(modelUrl), Fork, Record)] + FinishRest()
  }

  function FinishRest(): seq<Op> {
    [Put(SetState(FinishedSuccessfully), Fork, Skip), Put(SetLog(""), SameFork, Skip)]
  }

  lemma TrainingProgram(labels: seq<string>, modelUrl: string, out: string, err: string)
    ensures AfterClaim(Training(labels, modelUrl, out, err)) == TrainingRest(labels, modelUrl)
  {
    var ops := Program(Training(labels, modelUrl, out, err));
    assert ops[1..][0].Assign? && ops[1..][1..] == ops[2..] == TrainingRest(labels, modelUrl);
    assert SkipAssigns(ops[1..]) == SkipAssigns(ops[2..]) == ops[2..];
  }

  /** These are the calls of the program, for the stages ending as they do. */
  lemma TrainingPlays(labels: seq<string>, modelUrl: string, out: string, err: string, extract: Option<string>,
                      caffe: Option<string>, run: TrainingRun)
    returns (t: Trace)
    requires EndOutcomes(run.recorded) && EndOutcomes(run.end)
    ensures Complete(Training(labels, modelUrl, out, err), t, [extract, caffe])
    ensures t.progress.calls == TrainingRunCalls(labels, modelUrl, extract, caffe, run)
  {
    var job := Training(labels, modelUrl, out, err);
    t := ClaimPlays(job, run.claim, run.recorded);
    if run.claim.Won? { t := TrainingGoesOn(t, labels, modelUrl, out, err, extract, caffe, run); }
  }

  lemma TrainingGoesOn(t: Trace, labels: seq<string>, modelUrl: string, out: string, err: string,
                       extract: Option<string>, caffe: Option<string>, run: TrainingRun)
    returns (next: Trace)
    requires var job := Training(labels, modelUrl, out, err);
             Playing(job, t) && Reports(t.inputs) == [] && t.progress.todo == AfterClaim(job)
    requires EndOutcomes(run.end)
    ensures Complete(Training(labels, modelUrl, out, err), next, [extract, caffe])
    ensures next.progress.calls
         == TrainingCalls(t.progress.calls, labels, modelUrl, extract, run.labelled, caffe, run.modelled, run.end)
  {
    var job := Training(labels, modelUrl, out, err);
    TrainingProgram(labels, modelUrl, out, err);
    next := WorkAndPutPlay(job, t, SetLabels(Some(labels)), extract, run.labelled, CaffeRest(modelUrl));
    var error := ErrorAfter(extract, run.labelled);
    if error.None? {
      next := WorkAndPutPlay(job, next, SetModelUrl(modelUrl), caffe, run.modelled, FinishRest());
      error := ErrorAfter(caffe, run.modelled);
    }
    if error.Some? {
      next := EndPlays(job, next, Failed, error.value, [], run.end);
    } else {
      assert next.progress.todo == FinishRest() + [];
      next := EndPlays(job, next, FinishedSuccessfully, "", [], run.end);
    }
  }
}
