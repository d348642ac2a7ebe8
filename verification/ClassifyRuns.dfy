/** The Run method of a classify job. */
module ClassifyRuns {
  import opened Documents
  import opened Protocol
  import opened Scripts
  import opened RetryLoop
  import opened Updates
  import opened Traces
  import opened Classification
  import opened Pipeline

  const TRANSLATION_ERROR := "cannot translate labels"

  /** How a classify run ends. A negative numeric label brings the process down. */
  datatype Ending = NotClaimed | FailedWith(message: string) | Panicked | FinishedWith(results: map<string, string>)

  /** What the raw answers mean: names of the training job's labels for image data, else themselves. */
  function Answers(layer: LayerType, raw: map<string, string>, labels: seq<string>): map<string, string> {
    if layer.Data? then raw
    else map k | k in raw :: var reading := Read(raw[k], labels); if reading.Label? then reading.name else ""
  }

  predicate Translatable(layer: LayerType, raw: map<string, string>, labels: seq<string>) {
    layer.Data? || forall k :: k in raw ==> Read(raw[k], labels).Label?
  }

  /** Some answer is a negative number. */
  predicate Panics(layer: LayerType, raw: map<string, string>, labels: seq<string>) {
    layer.ImageData? && exists k :: k in raw && Read(raw[k], labels).Crash?
  }

  /** Some answer is a number beyond the labels, or not a number. */
  predicate Refuses(layer: LayerType, raw: map<string, string>, labels: seq<string>) {
    layer.ImageData? && exists k :: k in raw && Read(raw[k], labels).Refusal?
  }

  /** The translation of the raw answers. */
  predicate TranslatedTo(t: Translation, layer: LayerType, raw: map<string, string>, labels: seq<string>) {
    && (t.Translated? <==> Translatable(layer, raw, labels))
    && (t.Translated? ==> t.results == Answers(layer, raw, labels))
    && (t.Crashed? ==> Panics(layer, raw, labels))
    && (t.Refused? ==> Refuses(layer, raw, labels))
  }

  method Translate(layer: LayerType, raw: map<string, string>, labels: seq<string>) returns (t: Translation)
    ensures TranslatedTo(t, layer, raw, labels)
  {
    if layer.Data? {
      return Translated(raw);
    }
    t := TranslateLabels(raw, labels);
  }

  /** How the calls and the translation of a classify run behind its claim end. */
  datatype Classifying = Classifying(translation: Translation, saved: Outcome, finished: Outcome, end: seq<Outcome>)
  {
    predicate Unfailing() {
      !saved.Errored? && !finished.Errored? && NoneErrored(end)
    }

    function Failures(): nat {
      Fails(saved) + Fails(finished) + FailsIn(end)
    }
  }

  function EndingOf(error: Option<string>, c: Classifying): Ending {
    if error.Some? then FailedWith(error.value)
    else
      match c.translation
      case Refused => FailedWith(TRANSLATION_ERROR)
      case Crashed => Panicked
      case Translated(results) =>
        if c.saved.Errored? || c.finished.Errored? then FailedWith(STORE_ERROR) else FinishedWith(results)
  }

  /** The calls of a classify run, after those behind its claim. */
  function ClassifyCalls(calls: seq<Call>, error: Option<string>, c: Classifying): seq<Call>
    requires 1 <= |c.end| <= 2
  {
    if error.Some? then EndCalls(calls, Failed, error.value, c.end)
    else
      match c.translation
      case Refused => EndCalls(calls, Failed, TRANSLATION_ERROR, c.end)
      case Crashed => calls
      case Translated(results) =>
        var first := calls + [Call(SetResults(Some(results)), c.saved)];
        if c.saved.Errored? then EndCalls(first, Failed, STORE_ERROR, c.end)
        else
          var second := first + [Call(SetState(FinishedSuccessfully), c.finished)];
          if c.finished.Errored? then EndCalls(second, Failed, STORE_ERROR, c.end) else second
  }

  /** What a classify run that won its claim on b leaves behind. */
  function Classified(b: Body, ending: Ending): Body {
    match ending
    case NotClaimed => b
    case FailedWith(message) => b.(state := Failed, log := message)
    case Panicked => b.(state := Processing)
    case FinishedWith(results) => b.(state := FinishedSuccessfully, results := Some(results))
  }

  lemma FinishedAlone(b: Body, v: seq<Body>, results: map<string, string>, saved: bool, w: seq<Body>, finished: bool,
        x: seq<Body>)
    requires v != [] && v[|v| - 1] == b && b.state == Processing
    requires StoredAlone(SetResults(Some(results)), b, v, saved, w)
    requires w != []
             && StoredAlone(SetState(FinishedSuccessfully), CopyAfter(SetResults(Some(results)), b, b), w, finished, x)
    ensures x != [] && x[|x| - 1] == Classified(b, FinishedWith(results))
  {
  }

  /** The calls of a run that saves results, before a failure of that is recorded. */
  function MadeSaving(calls: seq<Call>, results: map<string, string>, saved: Outcome, finished: Outcome): seq<Call> {
    var more := calls + [Call(SetResults(Some(results)), saved)];
    if saved.Errored? then more else more + [Call(SetState(FinishedSuccessfully), finished)]
  }

  /** Results and the final state, both written through the receiver. */
  method SaveResults(db: Store, c: Document, results: map<string, string>, ghost n: nat, ghost calls: seq<Call>)
    returns (ok: bool, ghost saved: Outcome, ghost finished: Outcome)
    requires db.Valid() && c.revision < |db.versions|
    modifies db, c
    ensures db.Valid() && old(db.versions) <= db.versions && c.revision < |db.versions|
    ensures ok <==> !saved.Errored? && !finished.Errored?
    ensures Ends(old(db.versions), db.versions, old(c.body), calls, SetResults(Some(results)),
                 MadeSaving(calls, results, saved, finished))
    ensures db.errors == old(db.errors) + Fails(saved) + Fails(finished)
    ensures finished.Errored? ==> c.body.state == FinishedSuccessfully
    ensures Faultless(old(db.schedule)) ==> ok
    ensures old(Steady(db, c, n, calls)) ==>
              ok && Steady(db, c, n, calls + [Call(SetResults(Some(results)), saved)]
                                           + [Call(SetState(FinishedSuccessfully), finished)])
    ensures old(Quiet(db, c)) && old(c.body) == old(db.Last()) && old(c.body).state == Processing ==>
              ok && db.Last() == Classified(old(db.Last()), FinishedWith(results))
  {
    ghost var before, b, save := db.versions, c.body, SetResults(Some(results));
    var updated, failed := UpdateDocument(db, c, SetResults(Some(results)), n, calls);
    saved, finished := OutcomeOf(updated, failed), Lost;
    ghost var stored, v, b1 := updated, db.versions, c.body;
    if failed {
      OneEnds(before, v, b, b1, calls, save, saved);
      assert MadeSaving(calls, results, saved, finished) == calls + [Call(save, saved)];
      return false, saved, finished;
    }
    ghost var more := calls + [Call(save, saved)];
    updated, failed := UpdateDocument(db, c, SetState(FinishedSuccessfully), n, more);
    finished, ok := OutcomeOf(updated, failed), !failed;
    assert MadeSaving(calls, results, saved, finished) == more + [Call(SetState(FinishedSuccessfully), finished)];
    BothEnd(before, v, db.versions, b, b1, c.body, calls, save, saved, SetState(FinishedSuccessfully), finished);
    if old(Quiet(db, c)) && old(c.body) == old(db.Last()) && old(c.body).state == Processing {
      FinishedAlone(old(c.body), old(db.versions), results, stored, v, updated, db.versions);
    }
  }

  lemma SavingFailed(v: seq<Body>, w: seq<Body>, x: seq<Body>, b: Body, c: Body, calls: seq<Call>,
        results: map<string, string>, saved: Outcome, finished: Outcome, end: seq<Outcome>)
    requires v <= w <= x && c.state != Failed && EndOutcomes(end)
    requires var made := MadeSaving(calls, results, saved, finished);
             && Ends(v, w, b, calls, SetResults(Some(results)), made)
             && Ends(w, x, c, made, SetState(Failed), EndCalls(made, Failed, STORE_ERROR, end))
    ensures Carries(v, x, b, calls, EndCalls(MadeSaving(calls, results, saved, finished), Failed, STORE_ERROR, end))
  {
    var u, made := SetResults(Some(results)), MadeSaving(calls, results, saved, finished);
    forall from: nat | Showing(v, from, b, calls)
      ensures Showing(x, from, b, EndCalls(made, Failed, STORE_ERROR, end))
    {
      assert Poised(v, from, b, calls, u);
      assert Poised(w, from, c, made, SetState(Failed));
      SightedGrows(v, x, from, b);
    }
  }

  /** A classify run behind its claim. */
  method ClassifyClaimed(db: Store, c: Document, errors: seq<Option<string>>, layer: LayerType,
        raw: map<string, string>, labels: seq<string>, ghost n: nat, ghost calls: seq<Call>)
    returns (ending: Ending, ghost cl: Classifying)
    requires db.Valid() && c.revision < |db.versions|
    modifies db, c
    ensures db.Valid() && old(db.versions) <= db.versions && EndOutcomes(cl.end)
    ensures ending == EndingOf(FirstError(errors), cl)
    ensures FirstError(errors).None? ==> TranslatedTo(cl.translation, layer, raw, labels)
    ensures !ending.NotClaimed? && EndsRight(errors, layer, raw, labels, ending)
    ensures old(Steady(db, c, n, calls)) ==> Steady(db, c, n, ClassifyCalls(calls, FirstError(errors), cl))
    ensures db.errors == old(db.errors) + cl.Failures()
    ensures !cl.saved.Errored? ==>
              Carries(old(db.versions), db.versions, old(c.body), calls, ClassifyCalls(calls, FirstError(errors), cl))
    ensures Faultless(old(db.schedule)) ==>
              cl.Unfailing() && EndsExactly(errors, layer, raw, labels, true, ending)
    ensures old(Quiet(db, c)) && old(c.body) == old(db.Last()) && old(c.body).state == Processing ==>
              db.Last() == Classified(old(db.Last()), ending)
  {
    cl := Classifying(Translation.Refused, Lost, Lost, [Lost, Lost]);
    var error := RunStages(errors);
    if error.Some? {
      ghost var end := End(db, c, Failed, error.value, n, calls);
      return FailedWith(error.value), cl.(end := end);
    }
    var translation := Translate(layer, raw, labels);
    match translation {
      case Refused =>
        ghost var end := End(db, c, Failed, TRANSLATION_ERROR, n, calls);
        return FailedWith(TRANSLATION_ERROR), cl.(end := end);
      case Crashed =>
        return Panicked, cl.(translation := Crashed);
      case Translated(results) =>
        var ok;
        ghost var saved, finished;
        ok, saved, finished := SaveResults(db, c, results, n, calls);
        cl := Classifying(translation, saved, finished, [Lost, Lost]);
        ghost var v, u, made := db.versions, SetResults(Some(results)), MadeSaving(calls, results, saved, finished);
        if ok {
          EndCarries(old(db.versions), v, old(c.body), calls, u, made);
          return FinishedWith(results), cl;
        }
        ghost var end := End(db, c, Failed, STORE_ERROR, n, made);
        if !saved.Errored? {
          SavingFailed(old(db.versions), v, db.versions, old(c.body), c.body, calls, results, saved, finished, end);
        }
        return FailedWith(STORE_ERROR), cl.(end := end);
    }
  }

  /** What an ending means for the stages and the answers of the run. */
  predicate EndsRight(errors: seq<Option<string>>, layer: LayerType, raw: map<string, string>, labels: seq<string>,
        ending: Ending) {
    && (ending.FinishedWith? ==>
          FirstError(errors).None? && Translatable(layer, raw, labels) && ending.results == Answers(layer, raw, labels))
    && (ending.Panicked? ==> FirstError(errors).None? && Panics(layer, raw, labels))
    && (FirstError(errors).Some? && !ending.NotClaimed? ==> ending == FailedWith(FirstError(errors).value))
  }

  /** How a classify run ends whose calls all succeed: the ending is fixed by the claim, the stages and
      the answers, up to which untranslatable answer comes up first. */
  predicate EndsExactly(errors: seq<Option<string>>, layer: LayerType, raw: map<string, string>, labels: seq<string>,
        won: bool, ending: Ending) {
    if !won then ending == NotClaimed
    else if FirstError(errors).Some? then ending == FailedWith(FirstError(errors).value)
    else if Translatable(layer, raw, labels) then ending == FinishedWith(Answers(layer, raw, labels))
    else
      || (ending == FailedWith(TRANSLATION_ERROR) && Refuses(layer, raw, labels))
      || (ending == Panicked && Panics(layer, raw, labels))
  }

  /** What a classify run that is left alone does: it is not claimed exactly when its copy b or the
      document is in Processing, and else it leaves what its ending says. */
  predicate ClassifiedAlone(b: Body, v: seq<Body>, w: seq<Body>, ending: Ending)
    requires v != []
  {
    && (ending.NotClaimed? <==> b.state == Processing || v[|v| - 1].state == Processing)
    && RanAlone(b, v, w, Classified(v[|v| - 1], ending))
  }

  lemma ClassifiedFromClaim(b: Body, v: seq<Body>, won: bool, claimed: seq<Body>, w: seq<Body>, ending: Ending)
    requires v != [] && ClaimedAlone(b, v, won, claimed) && claimed <= w && (won <==> !ending.NotClaimed?)
    requires if won then w[|w| - 1] == Classified(claimed[|claimed| - 1], ending) else w == claimed
    ensures ClassifiedAlone(b, v, w, ending)
  {
    if won {
      RanFromClaim(b, v, claimed, w, w[|w| - 1]);
      assert Classified(v[|v| - 1].(state := Processing), ending) == Classified(v[|v| - 1], ending);
    }
  }

  /** How the calls and the translation of a classify run end. */
  datatype ClassifyRun = ClassifyRun(claim: Outcome, recorded: seq<Outcome>, rest: Classifying)
  {
    predicate Unfailing() {
      !claim.Errored? && NoneErrored(recorded) && rest.Unfailing()
    }

    function Failures(): nat {
      Fails(claim) + FailsIn(recorded) + rest.Failures()
    }
  }

  function ClassifyRunCalls(errors: seq<Option<string>>, run: ClassifyRun): seq<Call>
    requires 1 <= |run.recorded| <= 2 && 1 <= |run.rest.end| <= 2
  {
    var first := ClaimCalls(run.claim, run.recorded);
    if run.claim.Won? then ClassifyCalls(first, FirstError(errors), run.rest) else first
  }

  function EndingOfRun(errors: seq<Option<string>>, run: ClassifyRun): Ending {
    if run.claim.Won? then EndingOf(FirstError(errors), run.rest) else NotClaimed
  }

  /** The rest of a run that won its claim, which was made on the last of the versions `before`. */
  method FinishClassify(db: Store, c: Document, errors: seq<Option<string>>, layer: LayerType,
        raw: map<string, string>, labels: seq<string>, ghost n: nat, ghost start: Body,
        ghost before: seq<Body>, ghost claim: Outcome, ghost recorded: seq<Outcome>)
    returns (ending: Ending, ghost run: ClassifyRun)
    requires db.Valid() && c.revision < |db.versions| && claim.Won? && EndOutcomes(recorded) && before != []
    requires Begun(before, db.versions, c.body, ClaimCalls(claim, recorded))
    modifies db, c
    ensures db.Valid() && old(db.versions) <= db.versions && EndOutcomes(run.rest.end)
    ensures run.claim == claim && run.recorded == recorded && ending == EndingOf(FirstError(errors), run.rest)
    ensures FirstError(errors).None? ==> TranslatedTo(run.rest.translation, layer, raw, labels)
    ensures !ending.NotClaimed? && EndsRight(errors, layer, raw, labels, ending)
    ensures db.errors == old(db.errors) + run.rest.Failures()
    ensures !run.rest.saved.Errored? ==> Took(start, before, db.versions, claim, ClassifyRunCalls(errors, run))
    ensures Faultless(old(db.schedule)) ==>
              run.rest.Unfailing() && EndsExactly(errors, layer, raw, labels, true, ending)
    ensures old(Steady(db, c, n, ClaimCalls(claim, recorded))) ==> Backed(db, n, ClassifyRunCalls(errors, run))
    ensures old(Quiet(db, c)) && old(c.body) == old(db.Last()) && old(c.body).state == Processing ==>
              db.Last() == Classified(old(db.Last()), ending)
  {
    ghost var claimed, b, calls := db.versions, c.body, ClaimCalls(claim, recorded);
    ghost var rest;
    ending, rest := ClassifyClaimed(db, c, errors, layer, raw, labels, n, calls);
    run := ClassifyRun(claim, recorded, rest);
    ghost var all := ClassifyCalls(calls, FirstError(errors), rest);
    assert ClassifyRunCalls(errors, run) == all;
    if !rest.saved.Errored? { TookFromClaim(start, before, claimed, db.versions, b, calls, all); }
  }

  /** A classify run, with the errors of its foreign stages, in any environment. If the store does not
      fail, no call of it does, what it stored is what its calls won, and it finishes exactly when it
      wins its claim, no stage fails and every answer can be translated. Alone it leaves the document
      that its ending says. */
  method RunClassify(db: Store, c: Document, errors: seq<Option<string>>, layer: LayerType, raw: map<string, string>,
        labels: seq<string>)
    returns (ending: Ending, ghost run: ClassifyRun)
    requires db.Valid() && db.Coherent(c)
    modifies db, c
    ensures db.Valid() && old(db.versions) <= db.versions && EndOutcomes(run.recorded) && EndOutcomes(run.rest.end)
    ensures ending == EndingOfRun(errors, run) && EndsRight(errors, layer, raw, labels, ending)
    ensures !run.rest.saved.Errored? ==>
              Took(old(c.body), old(db.versions), db.versions, run.claim, ClassifyRunCalls(errors, run))
    ensures run.claim.Won? && FirstError(errors).None? ==> TranslatedTo(run.rest.translation, layer, raw, labels)
    ensures Faultless(old(db.schedule)) ==>
              && run.Unfailing() && EndsExactly(errors, layer, raw, labels, run.claim.Won?, ending)
              && Backed(db, |old(db.own)|, ClassifyRunCalls(errors, run))
    ensures old(db.schedule) == [] ==> ClassifiedAlone(old(c.body), old(db.versions), db.versions, ending)
    ensures db.errors == old(db.errors) + run.Failures()
  {
    ghost var n, before, start := |db.own|, db.versions, c.body;
    var won;
    ghost var claim, recorded;
    won, claim, recorded := ClaimDocument(db, c);
    run := ClassifyRun(claim, recorded, Classifying(Translation.Refused, Lost, Lost, [Lost, Lost]));
    ghost var claimed := db.versions;
    ending := NotClaimed;
    if won {
      ending, run := FinishClassify(db, c, errors, layer, raw, labels, n, start, before, claim, recorded);
    }
    if old(db.schedule) == [] {
      ClassifiedFromClaim(old(c.body), before, won, claimed, db.versions, ending);
    }
  }

  /** What some version has from index `from` on, after a classify run that claimed there. */
  ghost predicate AnsweredSince(v: seq<Body>, from: nat, ending: Ending) {
    match ending
    case FailedWith(message) => ShowsState(v, from, Failed) && ShowsLog(v, from, message)
    case FinishedWith(results) =>
      ShowsState(v, from, FinishedSuccessfully) && exists k :: from <= k < |v| && v[k].results == Some(results)
    case _ => true
  }

  /** A classify run that won its claim and whose calls did not fail left the results it ends with, or
      the error, in some version since, whatever other clients stored meanwhile. */
  lemma ClassificationIsStored(start: Body, v: seq<Body>, w: seq<Body>, errors: seq<Option<string>>, run: ClassifyRun)
    requires v != [] && EndOutcomes(run.recorded) && EndOutcomes(run.rest.end) && run.claim.Won? && run.Unfailing()
    requires Took(start, v, w, run.claim, ClassifyRunCalls(errors, run))
    ensures exists from :: |v| <= from && IsClaim(w, from) && AnsweredSince(w, from, EndingOfRun(errors, run))
  {
    var first, all, c := ClaimCalls(run.claim, run.recorded), ClassifyRunCalls(errors, run), run.rest;
    var from :| |v| <= from && IsClaim(w, from) && Effective(w, from, all);
    if FirstError(errors).Some? {
      EndIsSeen(w, from, first, Failed, FirstError(errors).value, c.end);
    } else if c.translation.Refused? {
      EndIsSeen(w, from, first, Failed, TRANSLATION_ERROR, c.end);
    } else if c.translation.Translated? {
      CallIsSeen(w, from, all, Call(SetResults(Some(c.translation.results)), c.saved));
      CallIsSeen(w, from, all, Call(SetState(FinishedSuccessfully), c.finished));
    }
  }

  function SavingOps(results: map<string, string>): seq<Op> {
    [Put(SetResults(Some(results)), Pointer, Record), Put(SetState(FinishedSuccessfully), Pointer, Record)]
  }

  lemma ClassifyProgram(results: map<string, string>)
    ensures AfterClaim(Classify(results)) == Works(6) + ([Work] + SavingOps(results))
  {
    var ops := Program(Classify(results));
    assert ops[1..] == Works(6) + ([Work] + SavingOps(results));
  }

  lemma SavingPlays(job: Job, t: Trace, results: map<string, string>, cl: Classifying) returns (next: Trace)
    requires Playing(job, t) && !job.Datafile? && t.progress.todo == SavingOps(results) && EndOutcomes(cl.end)
    requires cl.translation == Translated(results)
    ensures Playing(job, next) && next.progress.todo == [] && Reports(next.inputs) == Reports(t.inputs)
    ensures next.progress.calls == ClassifyCalls(t.progress.calls, None, cl)
  {
    var finish := Put(SetState(FinishedSuccessfully), Pointer, Record);
    next := PutEnds(job, t, SetResults(Some(results)), Pointer, [finish], cl.saved);
    if cl.saved.Errored? {
      next := EndPlays(job, next, Failed, STORE_ERROR, [], cl.end);
    } else {
      next := LastPutPlays(job, next, SetState(FinishedSuccessfully), Pointer, cl.finished, cl.end);
    }
  }

  lemma ClassifyGoesOn(job: Job, t: Trace, errors: seq<Option<string>>, results: map<string, string>,
        translatable: bool, cl: Classifying)
    returns (next: Trace)
    requires Playing(job, t) && job == Classify(results) && |errors| == 6 && Reports(t.inputs) == []
             && EndOutcomes(cl.end)
    requires t.progress.todo == AfterClaim(job)
    requires FirstError(errors).None? ==> translatable == cl.translation.Translated?
    requires FirstError(errors).None? && translatable ==> cl.translation.results == results
    ensures Playing(job, next) && next.progress.calls == ClassifyCalls(t.progress.calls, FirstError(errors), cl)
    ensures next.progress.todo == if EndingOf(FirstError(errors), cl).Panicked? then [Work] + SavingOps(results) else []
    ensures Reports(next.inputs) <= errors + [if translatable then None else Some(TRANSLATION_ERROR)]
  {
    var translated := [Work] + SavingOps(results);
    ClassifyProgram(results);
    next := StagesPlay(job, t, errors, translated);
    var error := FirstError(errors);
    if error.Some? {
      next := EndPlays(job, next, Failed, error.value, [], cl.end);
    } else if cl.translation.Refused? {
      next := WorkEnds(job, next, SavingOps(results), Some(TRANSLATION_ERROR));
      next := EndPlays(job, next, Failed, TRANSLATION_ERROR, [], cl.end);
    } else if cl.translation.Translated? {
      next := WorkEnds(job, next, SavingOps(results), None);
      next := SavingPlays(job, next, results, cl);
    }
  }

  /** These are the calls of the program with the translated answers as results, for the six foreign
      stages and the translation ending as they do; a panic leaves it at the translation. */
  lemma ClassifyPlays(errors: seq<Option<string>>, layer: LayerType, raw: map<string, string>, labels: seq<string>,
        run: ClassifyRun)
    returns (t: Trace)
    requires |errors| == 6 && EndOutcomes(run.recorded) && EndOutcomes(run.rest.end)
    requires run.claim.Won? && FirstError(errors).None? ==> TranslatedTo(run.rest.translation, layer, raw, labels)
    ensures Playing(Classify(Answers(layer, raw, labels)), t) && t.progress.calls == ClassifyRunCalls(errors, run)
    ensures t.progress.todo == [] <==> !EndingOfRun(errors, run).Panicked?
    ensures Reports(t.inputs) <= errors + [if Translatable(layer, raw, labels) then None else Some(TRANSLATION_ERROR)]
  {
    var results := Answers(layer, raw, labels);
    t := ClaimPlays(Classify(results), run.claim, run.recorded);
    if run.claim.Won? {
      t := ClassifyGoesOn(Classify(results), t, errors, results, Translatable(layer, raw, labels), run.rest);
    }
  }
}
