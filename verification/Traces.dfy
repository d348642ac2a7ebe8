/** How the runs of `Updates` follow their jobs' programs: lemmas for each way a stage or call ends. */
module Traces {
  import opened Documents
  import opened Protocol
  import opened Scripts
  import opened Updates

  /** A run so far: how its stages and calls ended, and where its program is. */
  datatype Trace = Trace(inputs: Inputs, progress: Progress)

  function Start(job: Job): Trace {
    Trace(Nothing, Begin(job))
  }

  predicate Playing(job: Job, t: Trace) {
    Play(job, t.inputs) == Some(t.progress)
  }

  function Ahead(job: Job, t: Trace, i: Input): Trace
    requires Fits(t.progress, i)
  {
    Trace(Then(t.inputs, i), Act(job, t.progress, i))
  }

  /** The errors that the stages ended with, in order. */
  function Reports(inputs: Inputs): seq<Option<string>> {
    match inputs
    case Nothing => []
    case Then(earlier, Ended(error)) => Reports(earlier) + [error]
    case Then(earlier, Returned(_)) => Reports(earlier)
  }

  /** The run followed its job's program to the end, and its stages ended like the first of these. */
  predicate Complete(job: Job, t: Trace, reports: seq<Option<string>>) {
    Playing(job, t) && t.progress.todo == [] && Reports(t.inputs) <= reports
  }

  /** A stage of the run ends. */
  lemma StageEnds(job: Job, t: Trace, error: Option<string>) returns (next: Trace)
    requires Playing(job, t) && Fits(t.progress, Ended(error))
    ensures next == Ahead(job, t, Ended(error)) && Playing(job, next)
    ensures Reports(next.inputs) == Reports(t.inputs) + [error]
  {
    next := Ahead(job, t, Ended(error));
  }

  /** A call of the run's program ends. */
  lemma CallEnds(job: Job, t: Trace, u: Update, o: Outcome) returns (next: Trace)
    requires Playing(job, t) && Fits(t.progress, Returned(o)) && UpdateOf(t.progress.todo[0]) == u
    ensures next == Ahead(job, t, Returned(o)) && Playing(job, next) && Reports(next.inputs) == Reports(t.inputs)
    ensures next.progress.calls == t.progress.calls + [Call(u, o)]
  {
    next := Ahead(job, t, Returned(o));
  }

  /** The two calls at the end of a run. */
  lemma EndPlays(job: Job, t: Trace, st: ProcessingState, message: string, rest: seq<Op>, outcomes: seq<Outcome>)
    returns (next: Trace)
    requires Playing(job, t) && EndOutcomes(outcomes)
    requires t.progress.todo == [Put(SetState(st), Fork, Skip), Put(SetLog(message), SameFork, Skip)] + rest
    requires StartsPlain(rest)
    ensures Playing(job, next) && next.progress.todo == rest && Reports(next.inputs) == Reports(t.inputs)
    ensures next.progress.calls == EndCalls(t.progress.calls, st, message, outcomes)
  {
    var ops := t.progress.todo;
    next := CallEnds(job, t, SetState(st), outcomes[0]);
    if outcomes == [Errored] {
      assert ops[2..] == rest;
    } else {
      assert ops[1..] == [Put(SetLog(message), SameFork, Skip)] + rest && ops[1..][1..] == rest;
      next := CallEnds(job, next, SetLog(message), outcomes[1]);
    }
  }

  predicate StartsPlain(ops: seq<Op>) {
    ops != [] ==> !ops[0].Assign? && !(ops[0].Put? && ops[0].receiver.SameFork?)
  }

  /** A stage ends whose error ends the run. */
  lemma WorkEnds(job: Job, t: Trace, rest: seq<Op>, error: Option<string>) returns (next: Trace)
    requires Playing(job, t) && t.progress.todo == [Work] + rest && StartsPlain(rest)
    ensures Playing(job, next) && Reports(next.inputs) == Reports(t.inputs) + [error]
    ensures next.progress.calls == t.progress.calls
    ensures next.progress.todo == if error.Some? then FailureOps(job, error.value) else rest
  {
    next := StageEnds(job, t, error);
    assert t.progress.todo[1..] == rest;
  }

  /** A call ends whose error ends the run. */
  lemma PutEnds(job: Job, t: Trace, u: Update, receiver: Receiver, rest: seq<Op>, o: Outcome) returns (next: Trace)
    requires Playing(job, t) && t.progress.todo == [Put(u, receiver, Record)] + rest && StartsPlain(rest)
    ensures Playing(job, next) && Reports(next.inputs) == Reports(t.inputs)
    ensures next.progress.calls == t.progress.calls + [Call(u, o)]
    ensures next.progress.todo == if o.Errored? then FailureOps(job, STORE_ERROR) else rest
  {
    next := CallEnds(job, t, u, o);
    assert t.progress.todo[1..] == rest;
  }

  /** The last call of a program, whose error is recorded. */
  lemma LastPutPlays(job: Job, t: Trace, u: Update, receiver: Receiver, o: Outcome, end: seq<Outcome>)
    returns (next: Trace)
    requires Playing(job, t) && !job.Datafile? && t.progress.todo == [Put(u, receiver, Record)] && EndOutcomes(end)
    ensures Playing(job, next) && next.progress.todo == [] && Reports(next.inputs) == Reports(t.inputs)
    ensures var all := t.progress.calls + [Call(u, o)];
            next.progress.calls == if o.Errored? then EndCalls(all, Failed, STORE_ERROR, end) else all
  {
    assert t.progress.todo == [Put(u, receiver, Record)] + [];
    next := PutEnds(job, t, u, receiver, [], o);
    if o.Errored? { next := EndPlays(job, next, Failed, STORE_ERROR, [], end); }
  }

  lemma WorkAndPutPlay(job: Job, t: Trace, u: Update, stage: Option<string>, o: Outcome, rest: seq<Op>)
    returns (next: Trace)
    requires Playing(job, t) && t.progress.todo == [Work, Put(u, Fork, Record)] + rest && StartsPlain(rest)
    ensures Playing(job, next) && Reports(next.inputs) == Reports(t.inputs) + [stage]
    ensures next.progress.calls == if stage.Some? then t.progress.calls else t.progress.calls + [Call(u, o)]
    ensures next.progress.todo ==
              if ErrorAfter(stage, o).Some? then FailureOps(job, ErrorAfter(stage, o).value) else rest
  {
    assert t.progress.todo == [Work] + ([Put(u, Fork, Record)] + rest);
    next := WorkEnds(job, t, [Put(u, Fork, Record)] + rest, stage);
    if stage.None? { next := PutEnds(job, next, u, Fork, rest, o); }
  }

  /** What is left of a program behind its first call. */
  function AfterClaim(job: Job): seq<Op> {
    SkipAssigns(Program(job)[1..])
  }

  /** The programs that start with a claim and record their errors with a state and a log. */
  lemma ClaimPlays(job: Job, claim: Outcome, recorded: seq<Outcome>) returns (t: Trace)
    requires !job.ArtifactWriter? && !job.Datafile? && EndOutcomes(recorded)
    ensures Playing(job, t) && Reports(t.inputs) == []
    ensures t.progress.todo == if claim.Won? then AfterClaim(job) else []
    ensures t.progress.calls == ClaimCalls(claim, recorded)
  {
    t := Start(job);
    assert Program(job)[0].Claim?;
    t := CallEnds(job, t, SetState(Processing), claim);
    assert t.progress.calls == [Call(SetState(Processing), claim)];
    if claim.Errored? { t := EndPlays(job, t, Failed, STORE_ERROR, [], recorded); }
  }

  function Works(n: nat): seq<Op> {
    seq(n, _ => Work)
  }

  lemma WorksBegin(n: nat, rest: seq<Op>)
    ensures Works(n + 1) + rest == [Work] + (Works(n) + rest)
  {
  }

  lemma MoreReports(before: seq<Option<string>>, errors: seq<Option<string>>)
    requires errors != []
    ensures (before + [errors[0]]) + errors[1..] == before + errors
    ensures before + [errors[0]] <= before + errors
  {
  }

  lemma {:induction false} StagesPlay(job: Job, t: Trace, errors: seq<Option<string>>, rest: seq<Op>)
    returns (next: Trace)
    requires Playing(job, t) && t.progress.todo == Works(|errors|) + rest && StartsPlain(rest)
    ensures Playing(job, next) && next.progress.calls == t.progress.calls
    ensures next.progress.todo == if FirstError(errors).Some? then FailureOps(job, FirstError(errors).value) else rest
    ensures Reports(next.inputs) <= Reports(t.inputs) + errors
    ensures FirstError(errors).None? ==> Reports(next.inputs) == Reports(t.inputs) + errors
    decreases |errors|
  {
    if errors == [] {
      next := t;
    } else {
      WorksBegin(|errors| - 1, rest);
      MoreReports(Reports(t.inputs), errors);
      next := WorkEnds(job, t, Works(|errors| - 1) + rest, errors[0]);
      if errors[0].None? { next := StagesPlay(job, next, errors[1..], rest); }
    }
  }
}
