/** Updates of one document through the verified retry loop, in any environment: other clients keep
    editing and the store may fail any request. Two things are followed through every method: if the
    store does not fail, what was stored is exactly what the calls won; and on a store that nobody
    else edits, the exact versions. */
module Updates {
  import opened Documents
  import opened Protocol
  import opened RetryLoop

  type Document = Thing<Body>
  type Store = Database<Body>

  function WonUpdates(calls: seq<Call>): seq<Update> {
    if calls == [] then []
    else
      var c := calls[|calls| - 1];
      WonUpdates(calls[..|calls| - 1]) + if c.outcome.Won? then [c.update] else []
  }

  /** The versions at these indices are these updates, each applied to the version right before. */
  ghost predicate Wrote(versions: seq<Body>, at: seq<nat>, updates: seq<Update>) {
    |at| == |updates| && forall i :: 0 <= i < |at| ==>
      0 < at[i] < |versions| && !Done(updates[i], versions[at[i] - 1])
      && versions[at[i]] == Apply(updates[i], versions[at[i] - 1])
  }

  lemma WroteMore(v: seq<Body>, w: seq<Body>, at: seq<nat>, more: seq<nat>, updates: seq<Update>, newer: seq<Update>)
    requires Wrote(v, at, updates) && v <= w && Wrote(w, more, newer)
    ensures Wrote(w, at + more, updates + newer)
  {
  }

  /** What was stored through this client since `own` had n elements is what the calls won. */
  ghost predicate Backed(db: Store, n: nat, calls: seq<Call>)
    reads db
  {
    n <= |db.own| && Wrote(db.versions, db.own[n..], WonUpdates(calls))
  }

  /** None of these calls ended in a store error. */
  predicate NoneErrored(outcomes: seq<Outcome>) {
    forall i :: 0 <= i < |outcomes| ==> !outcomes[i].Errored?
  }

  function OutcomeOf(updated: bool, failed: bool): Outcome {
    if failed then Errored else if updated then Won else Lost
  }

  function Fails(o: Outcome): nat {
    if o.Errored? then 1 else 0
  }

  /** How many of the one or two calls at the end of a run failed. */
  function FailsIn(outcomes: seq<Outcome>): nat {
    (if |outcomes| > 0 then Fails(outcomes[0]) else 0) + if |outcomes| > 1 then Fails(outcomes[1]) else 0
  }

  /** Some version from this index on shows what u writes. */
  ghost predicate Seen(v: seq<Body>, from: nat, u: Update) {
    exists k :: from <= k < |v| && Done(u, v[k])
  }

  /** Whatever these calls were to write is in some version from this index on, unless the store failed. */
  ghost predicate Effective(v: seq<Body>, from: nat, calls: seq<Call>) {
    forall i :: 0 <= i < |calls| ==> TookEffect(v, from, calls, i)
  }

  ghost predicate TookEffect(v: seq<Body>, from: nat, calls: seq<Call>, i: nat)
    requires i < |calls|
  {
    calls[i].outcome.Errored? || Seen(v, from, calls[i].update)
  }

  /** The body is that of some version from this index on, apart from fields that are assigned locally. */
  ghost predicate Sighted(v: seq<Body>, from: nat, b: Body) {
    exists k :: from <= k < |v| && Alike(b, v[k])
  }

  predicate Alike(b: Body, c: Body) {
    b == c.(stdOutUrl := b.stdOutUrl, stdErrUrl := b.stdErrUrl, sourceUrl := b.sourceUrl)
  }

  /** What a run relies on from call to call, in any environment: its calls took effect, and its copy has
      nothing that no version had. */
  ghost predicate Showing(v: seq<Body>, from: nat, b: Body, calls: seq<Call>) {
    Sighted(v, from, b) && Effective(v, from, calls)
  }

  lemma AlikeIsDone(u: Update, b: Body, c: Body)
    requires Alike(b, c)
    ensures Done(u, b) <==> Done(u, c)
  {
  }

  lemma SightedGrows(v: seq<Body>, w: seq<Body>, from: nat, b: Body)
    requires Sighted(v, from, b) && v <= w
    ensures Sighted(w, from, b)
  {
    var k :| from <= k < |v| && Alike(b, v[k]);
    assert w[k] == v[k];
  }

  lemma EffectiveGrows(v: seq<Body>, w: seq<Body>, from: nat, calls: seq<Call>)
    requires Effective(v, from, calls) && v <= w
    ensures Effective(w, from, calls)
  {
    forall i | 0 <= i < |calls| ensures TookEffect(w, from, calls, i) {
      assert TookEffect(v, from, calls, i);
      if !calls[i].outcome.Errored? {
        var k :| from <= k < |v| && Done(calls[i].update, v[k]);
        assert w[k] == v[k];
      }
    }
  }

  lemma EffectiveMore(v: seq<Body>, w: seq<Body>, from: nat, calls: seq<Call>, c: Call)
    requires Effective(v, from, calls) && v <= w && (c.outcome.Errored? || Seen(w, from, c.update))
    ensures Effective(w, from, calls + [c])
  {
    EffectiveGrows(v, w, from, calls);
    forall i | 0 <= i < |calls + [c]| ensures TookEffect(w, from, calls + [c], i) {
      if i < |calls| { assert TookEffect(w, from, calls, i) && (calls + [c])[i] == calls[i]; }
    }
  }

  /** The calls so far took effect, and a call for u from copy b will, too. */
  ghost predicate Poised(v: seq<Body>, from: nat, b: Body, calls: seq<Call>, u: Update) {
    Effective(v, from, calls) && from < |v| && (Sighted(v, from, b) || !Done(u, b))
  }

  /** One more call, from a copy b that is known or still has to be updated, to a copy c. */
  lemma ShowingMore(v: seq<Body>, w: seq<Body>, from: nat, b: Body, c: Body, calls: seq<Call>, u: Update, o: Outcome)
    requires Poised(v, from, b, calls, u) && v <= w
    requires !o.Errored? ==> Done(u, c) && (c == b || c == w[|w| - 1])
    ensures Effective(w, from, calls + [Call(u, o)])
    ensures !o.Errored? ==> Sighted(w, from, c)
  {
    if !o.Errored? {
      if c == b {
        SightedGrows(v, w, from, b);
      } else {
        assert Alike(c, w[|w| - 1]);
      }
      var k :| from <= k < |w| && Alike(c, w[k]);
      AlikeIsDone(u, c, w[k]);
      assert Seen(w, from, u);
    }
    EffectiveMore(v, w, from, calls, Call(u, o));
  }

  /** What a call for u does to the copy b, and to what is known of the calls. */
  ghost predicate Shows(v: seq<Body>, w: seq<Body>, b: Body, c: Body, calls: seq<Call>, u: Update, o: Outcome) {
    forall from :: Poised(v, from, b, calls, u) ==>
      Effective(w, from, calls + [Call(u, o)]) && (!o.Errored? ==> Sighted(w, from, c))
  }

  lemma CallShows(v: seq<Body>, w: seq<Body>, b: Body, c: Body, calls: seq<Call>, u: Update, o: Outcome)
    requires v <= w && (!o.Errored? ==> Done(u, c) && (c == b || (w != [] && c == w[|w| - 1])))
    ensures Shows(v, w, b, c, calls, u, o)
  {
    forall from | Poised(v, from, b, calls, u)
      ensures Effective(w, from, calls + [Call(u, o)]) && (!o.Errored? ==> Sighted(w, from, c))
    {
      ShowingMore(v, w, from, b, c, calls, u, o);
    }
  }

  /** What calls through value receivers do, made from copies of b: they take effect, too. */
  ghost predicate Carries(v: seq<Body>, w: seq<Body>, b: Body, calls: seq<Call>, more: seq<Call>) {
    forall from :: Showing(v, from, b, calls) ==> Showing(w, from, b, more)
  }

  /** What calls do whose first one is for u, made from copies of b. */
  ghost predicate Ends(v: seq<Body>, w: seq<Body>, b: Body, calls: seq<Call>, u: Update, more: seq<Call>) {
    forall from :: Poised(v, from, b, calls, u) ==> Effective(w, from, more)
  }

  lemma OneEnds(v: seq<Body>, w: seq<Body>, b: Body, c: Body, calls: seq<Call>, u: Update, o: Outcome)
    requires Shows(v, w, b, c, calls, u, o)
    ensures Ends(v, w, b, calls, u, calls + [Call(u, o)])
  {
  }

  /** Two calls, the second one from the copy that the first one left. */
  lemma BothEnd(v: seq<Body>, w: seq<Body>, x: seq<Body>, b: Body, c: Body, d: Body, calls: seq<Call>, u: Update,
                o: Outcome, u2: Update, o2: Outcome)
    requires v <= w && !o.Errored? && Shows(v, w, b, c, calls, u, o)
    requires Shows(w, x, c, d, calls + [Call(u, o)], u2, o2)
    ensures Ends(v, x, b, calls, u, calls + [Call(u, o)] + [Call(u2, o2)])
  {
    forall from | Poised(v, from, b, calls, u) ensures Effective(x, from, calls + [Call(u, o)] + [Call(u2, o2)]) {
      assert Poised(w, from, c, calls + [Call(u, o)], u2);
    }
  }

  lemma EndCarries(v: seq<Body>, w: seq<Body>, b: Body, calls: seq<Call>, u: Update, more: seq<Call>)
    requires v <= w && Ends(v, w, b, calls, u, more)
    ensures Carries(v, w, b, calls, more)
  {
    forall from | Showing(v, from, b, calls) ensures Showing(w, from, b, more) {
      assert Poised(v, from, b, calls, u);
      SightedGrows(v, w, from, b);
    }
  }

  lemma ThenCarries(v: seq<Body>, w: seq<Body>, x: seq<Body>, b: Body, calls: seq<Call>, more: seq<Call>,
        most: seq<Call>)
    requires Carries(v, w, b, calls, more) && Carries(w, x, b, more, most)
    ensures Carries(v, x, b, calls, most)
  {
  }

  lemma AssignedCarries(v: seq<Body>, w: seq<Body>, b: Body, c: Body, calls: seq<Call>, more: seq<Call>)
    requires Alike(b, c) && Carries(v, w, c, calls, more)
    ensures Carries(v, w, b, calls, more)
  {
    forall from: nat | Showing(v, from, b, calls) ensures Showing(w, from, b, more) {
      var k :| from <= k < |v| && Alike(b, v[k]);
      assert Alike(c, v[k]);
      assert Showing(w, from, c, more);
      var m :| from <= m < |w| && Alike(c, w[m]);
      assert Alike(b, w[m]);
    }
  }

  lemma CopyEnds(v: seq<Body>, w: seq<Body>, b: Body, c: Body, calls: seq<Call>, u: Update, o: Outcome)
    requires v <= w && Shows(v, w, b, c, calls, u, o)
    ensures Ends(v, w, b, calls, u, calls + [Call(u, o)]) && Carries(v, w, b, calls, calls + [Call(u, o)])
  {
    OneEnds(v, w, b, c, calls, u, o);
    EndCarries(v, w, b, calls, u, calls + [Call(u, o)]);
  }

  /** Nobody else edits the document any more, and the copy is coherent. */
  ghost predicate Quiet(db: Store, j: Document)
    reads db, j
  {
    db.schedule == [] && db.Coherent(j)
  }

  /** The store will not fail, the copy is coherent, and what was stored is what the calls won. */
  ghost predicate Steady(db: Store, j: Document, n: nat, calls: seq<Call>)
    reads db, j
  {
    Faultless(db.schedule) && db.Coherent(j) && Backed(db, n, calls)
  }

  /** What an update does on a quiet store: it stores at most one version, the updater applied to the
      newest one, and it does that unless the copy or the newest version is done. */
  predicate StoredAlone(u: Update, copy: Body, versions: seq<Body>, updated: bool, newVersions: seq<Body>)
    requires versions != []
  {
    var last := versions[|versions| - 1];
    && updated == (!Done(u, copy) && !Done(u, last))
    && if updated then |newVersions| == |versions| + 1 && versions <= newVersions
          && newVersions[|versions|] == Apply(u, last)
       else newVersions == versions
  }

  /** The copy that such an update leaves. */
  function CopyAfter(u: Update, copy: Body, last: Body): Body {
    if Done(u, copy) then copy else if Done(u, last) then last else Apply(u, last)
  }

  /** One more call, which stored a version if and only if it won. */
  lemma BackedMore(v: seq<Body>, w: seq<Body>, own: seq<nat>, newOwn: seq<nat>, n: nat, calls: seq<Call>, u: Update,
        o: Outcome)
    requires v <= w && n <= |own| && Wrote(v, own[n..], WonUpdates(calls))
    requires newOwn == own + if o.Won? then [|w| - 1] else []
    requires o.Won? ==> |w| >= 2 && !Done(u, w[|w| - 2]) && w[|w| - 1] == Apply(u, w[|w| - 2])
    ensures Wrote(w, newOwn[n..], WonUpdates(calls + [Call(u, o)]))
  {
    var at, newer := if o.Won? then [|w| - 1] else [], if o.Won? then [u] else [];
    assert (calls + [Call(u, o)])[..|calls|] == calls;
    WroteMore(v, w, own[n..], at, WonUpdates(calls), newer);
    assert newOwn[n..] == own[n..] + at;
  }

  /** `casUpdate` with the updater and done test of u. */
  method CasUpdateWith(db: Store, j: Document, u: Update, ghost calls: seq<Call>)
    returns (updated: bool, failed: bool)
    requires db.Valid() && j.revision < |db.versions|
    modifies db, j
    ensures db.Valid() && old(db.versions) <= db.versions && j.revision < |db.versions|
    ensures failed ==> !updated
    ensures !failed ==> Done(u, j.body)
    ensures updated ==>
              |db.versions| > |old(db.versions)| && j.revision < |db.versions| - 1 && j.body == db.Last()
    ensures !failed && !updated ==> j.body == if Done(u, old(j.body)) then old(j.body) else db.Last()
    ensures failed ==>
              j.body == Apply(u, if j.revision == old(j.revision) then old(j.body) else db.versions[j.revision])
              && (j.revision != old(j.revision) ==> |old(db.versions)| - 1 <= j.revision)
    ensures Shows(old(db.versions), db.versions, old(j.body), j.body, calls, u, OutcomeOf(updated, failed))
    ensures db.errors == old(db.errors) + if failed then 1 else 0
    ensures !failed ==> db.own == old(db.own) + if updated then [|db.versions| - 1] else []
    ensures !failed && Done(u, old(j.body)) ==> !updated && db.versions == old(db.versions)
    ensures updated && old(db.Coherent(j)) ==>
              |db.versions| >= 2 && !Done(u, db.versions[|db.versions| - 2])
                    && db.Last() == Apply(u, db.versions[|db.versions| - 2])
    ensures !failed && old(db.Coherent(j)) ==> db.Coherent(j)
    ensures Faultless(old(db.schedule)) ==> !failed && Faultless(db.schedule)
    ensures old(db.schedule) == [] ==>
              db.schedule == [] && !failed && |db.versions| == |old(db.versions)| + if updated then 1 else 0
  {
    ghost var v, b0 := db.versions, j.body;
    updated, failed := CasUpdate(db, j, b => Apply(u, b), b => Done(u, b));
    ghost var o := OutcomeOf(updated, failed);
    assert o.Errored? <==> failed;
    CallShows(v, db.versions, b0, j.body, calls, u, o);
  }

  lemma AloneFromPrefix(u: Update, b: Body, v: seq<Body>, updated: bool, c: Body, w: seq<Body>)
    requires v != [] && v <= w && |w| == |v| + (if updated then 1 else 0) && Done(u, c)
    requires Done(u, b) ==> !updated && c == b
    requires updated ==> !Done(u, v[|v| - 1]) && w[|v|] == Apply(u, v[|v| - 1]) == c
    requires !updated && !Done(u, b) ==> c == v[|v| - 1]
    ensures StoredAlone(u, b, v, updated, w) && c == CopyAfter(u, b, v[|v| - 1])
  {
    assert w == v + w[|v|..];
  }

  /** One of the jobs' Update methods; `calls` are the run's calls before this one. */
  method UpdateDocument(db: Store, j: Document, u: Update, ghost n: nat, ghost calls: seq<Call>)
    returns (updated: bool, failed: bool)
    requires db.Valid() && j.revision < |db.versions|
    modifies db, j
    ensures db.Valid() && old(db.versions) <= db.versions && j.revision < |db.versions|
    ensures failed ==> !updated
    ensures !failed ==> Done(u, j.body)
    ensures updated ==> j.revision < |db.versions| - 1
    ensures updated && old(db.Coherent(j)) ==>
              |db.versions| >= 2 && !Done(u, db.versions[|db.versions| - 2])
              && j.body == db.Last() == Apply(u, db.versions[|db.versions| - 2]) && |db.versions| > |old(db.versions)|
    ensures failed ==>
              j.body == Apply(u, if j.revision == old(j.revision) then old(j.body) else db.versions[j.revision])
              && (j.revision != old(j.revision) ==> |old(db.versions)| - 1 <= j.revision)
    ensures Shows(old(db.versions), db.versions, old(j.body), j.body, calls, u, OutcomeOf(updated, failed))
    ensures db.errors == old(db.errors) + if failed then 1 else 0
    ensures Faultless(old(db.schedule)) ==> !failed && Faultless(db.schedule)
    ensures old(Steady(db, j, n, calls)) ==>
              !failed && Steady(db, j, n, calls + [Call(u, OutcomeOf(updated, failed))])
    ensures old(Quiet(db, j)) ==>
              && !failed && Quiet(db, j)
              && StoredAlone(u, old(j.body), old(db.versions), updated, db.versions)
              && j.body == CopyAfter(u, old(j.body), old(db.Last()))
  {
    ghost var v, own, b := db.versions, db.own, j.body;
    updated, failed := CasUpdateWith(db, j, u, calls);
    ghost var o := OutcomeOf(updated, failed);
    if old(Steady(db, j, n, calls)) {
      BackedMore(v, db.versions, own, db.own, n, calls, u, o);
    }
    if old(Quiet(db, j)) {
      AloneFromPrefix(u, b, v, updated, j.body, db.versions);
    }
  }

  /** The copy that a value receiver works on. */
  method CopyOf(j: Document) returns (copy: Document)
    ensures fresh(copy) && copy.revision == j.revision && copy.body == j.body
  {
    copy := new Thing(j.revision, j.body);
  }

  /** An update through a value receiver. */
  method UpdateCopy(db: Store, j: Document, u: Update, ghost n: nat, ghost calls: seq<Call>)
    returns (updated: bool, failed: bool)
    requires db.Valid() && j.revision < |db.versions|
    modifies db
    ensures db.Valid() && old(db.versions) <= db.versions && (failed ==> !updated)
    ensures Ends(old(db.versions), db.versions, j.body, calls, u, calls + [Call(u, OutcomeOf(updated, failed))])
    ensures Carries(old(db.versions), db.versions, j.body, calls, calls + [Call(u, OutcomeOf(updated, failed))])
    ensures db.errors == old(db.errors) + if failed then 1 else 0
    ensures Faultless(old(db.schedule)) ==> !failed && Faultless(db.schedule)
    ensures old(Steady(db, j, n, calls)) ==>
              !failed && Steady(db, j, n, calls + [Call(u, OutcomeOf(updated, failed))])
    ensures old(Quiet(db, j)) ==>
              !failed && Quiet(db, j) && StoredAlone(u, j.body, old(db.versions), updated, db.versions)
  {
    ghost var v := db.versions;
    var copy := CopyOf(j);
    updated, failed := UpdateDocument(db, copy, u, n, calls);
    CopyEnds(v, db.versions, j.body, copy.body, calls, u, OutcomeOf(updated, failed));
  }

  /** What a state and then the log, both written from one copy, leave on a quiet store; a copy that
      is in that state already does not look at the store. */
  predicate EndedWith(st: ProcessingState, message: string, b: Body, last: Body, newLast: Body) {
    if b.state != st then newLast == last.(state := st, log := message)
    else newLast == if b.log == message then last else last.(log := message)
  }

  lemma EndedAlone(st: ProcessingState, message: string, b: Body, v: seq<Body>, stored: bool, w: seq<Body>,
                   logged: bool, x: seq<Body>)
    requires v != [] && StoredAlone(SetState(st), b, v, stored, w)
    requires w != [] && StoredAlone(SetLog(message), CopyAfter(SetState(st), b, v[|v| - 1]), w, logged, x)
    ensures x != [] && EndedWith(st, message, b, v[|v| - 1], x[|x| - 1])
  {
  }

  /** The calls of a run, after the two at its end. */
  function EndCalls(calls: seq<Call>, st: ProcessingState, message: string, outcomes: seq<Outcome>): seq<Call>
    requires 1 <= |outcomes| <= 2
  {
    var first := calls + [Call(SetState(st), outcomes[0])];
    if |outcomes| > 1 then first + [Call(SetLog(message), outcomes[1])] else first
  }

  predicate EndOutcomes(outcomes: seq<Outcome>) {
    outcomes == [Errored] || (|outcomes| == 2 && !outcomes[0].Errored?)
  }

  /** Failed of a training or classify job or a dataset, and FinishedSuccessfully of a training job,
      called on a copy: state first, then log, unless the state could not be written. */
  method End(db: Store, j: Document, st: ProcessingState, message: string, ghost n: nat, ghost calls: seq<Call>)
    returns (ghost outcomes: seq<Outcome>)
    requires db.Valid() && j.revision < |db.versions|
    modifies db
    ensures db.Valid() && old(db.versions) <= db.versions && EndOutcomes(outcomes)
    ensures Ends(old(db.versions), db.versions, j.body, calls, SetState(st), EndCalls(calls, st, message, outcomes))
    ensures Carries(old(db.versions), db.versions, j.body, calls, EndCalls(calls, st, message, outcomes))
    ensures db.errors == old(db.errors) + FailsIn(outcomes)
    ensures Faultless(old(db.schedule)) ==> NoneErrored(outcomes) && Faultless(db.schedule)
    ensures old(Steady(db, j, n, calls)) ==> Steady(db, j, n, EndCalls(calls, st, message, outcomes))
    ensures old(Quiet(db, j)) ==> Quiet(db, j) && EndedWith(st, message, j.body, old(db.Last()), db.Last())
  {
    var copy := CopyOf(j);
    var updated, failed := UpdateDocument(db, copy, SetState(st), n, calls);
    ghost var first := OutcomeOf(updated, failed);
    if failed {
      OneEnds(old(db.versions), db.versions, j.body, copy.body, calls, SetState(st), first);
      EndCarries(old(db.versions), db.versions, j.body, calls, SetState(st), calls + [Call(SetState(st), first)]);
      return [Errored];
    }
    ghost var stored, v, done := updated, db.versions, copy.body;
    ghost var more := calls + [Call(SetState(st), first)];
    updated, failed := UpdateDocument(db, copy, SetLog(message), n, more);
    outcomes := [first, OutcomeOf(updated, failed)];
    BothEnd(old(db.versions), v, db.versions, j.body, done, copy.body, calls, SetState(st), first, SetLog(message),
            outcomes[1]);
    EndCarries(old(db.versions), db.versions, j.body, calls, SetState(st), EndCalls(calls, st, message, outcomes));
    if old(Quiet(db, j)) {
      EndedAlone(st, message, j.body, old(db.versions), stored, v, updated, db.versions);
    }
  }

  /** The error that ends a run after a stage and a call: the stage's, or that of the call. */
  function ErrorAfter(stage: Option<string>, o: Outcome): Option<string> {
    if stage.Some? then stage else if o.Errored? then Some(STORE_ERROR) else None
  }

  lemma AgreeingUpdate(u: Update, b: Body, v: seq<Body>, updated: bool, w: seq<Body>)
    requires v != [] && StoredAlone(u, b, v, updated, w) && AgreeOn(FieldOf(u), b, v[|v| - 1])
    ensures w != [] && w[|w| - 1] == Apply(u, v[|v| - 1])
  {
  }

  /** A foreign stage and then an update through a value receiver, as extractData and runCaffe end. */
  method WorkAndUpdate(db: Store, j: Document, stage: Option<string>, u: Update, ghost n: nat, ghost calls: seq<Call>)
    returns (error: Option<string>, ghost o: Outcome)
    requires db.Valid() && j.revision < |db.versions|
    modifies db
    ensures db.Valid() && old(db.versions) <= db.versions
    ensures error == ErrorAfter(stage, o)
    ensures Carries(old(db.versions), db.versions, j.body, calls, if stage.Some? then calls else calls + [Call(u, o)])
    ensures db.errors == old(db.errors) + Fails(o)
    ensures Faultless(old(db.schedule)) ==> !o.Errored? && Faultless(db.schedule)
    ensures old(Steady(db, j, n, calls)) ==> Steady(db, j, n, if stage.Some? then calls else calls + [Call(u, o)])
    ensures old(Quiet(db, j)) ==>
              && Quiet(db, j) && error == stage
              && (stage.None? && AgreeOn(FieldOf(u), j.body, old(db.Last())) ==> db.Last() == Apply(u, old(db.Last())))
              && (stage.Some? ==> db.versions == old(db.versions))
  {
    if stage.Some? {
      return stage, Lost;
    }
    var updated, failed := UpdateCopy(db, j, u, n, calls);
    o := OutcomeOf(updated, failed);
    error := if failed then Some(STORE_ERROR) else None;
    if old(Quiet(db, j)) && AgreeOn(FieldOf(u), j.body, old(db.Last())) {
      AgreeingUpdate(u, j.body, old(db.versions), updated, db.versions);
    }
  }

  /** The claim of a document in Processing changes nothing; otherwise it stores the claimed document. */
  predicate ClaimedAlone(b: Body, v: seq<Body>, won: bool, w: seq<Body>)
    requires v != []
  {
    var last := v[|v| - 1];
    && won == (b.state != Processing && last.state != Processing)
    && if won then |w| == |v| + 1 && v <= w && w[|v|] == last.(state := Processing) else w == v
  }

  /** The calls of a claim: an error of it is recorded. */
  function ClaimCalls(claim: Outcome, recorded: seq<Outcome>): seq<Call>
    requires 1 <= |recorded| <= 2
  {
    var first := [Call(SetState(Processing), claim)];
    if claim.Errored? then EndCalls(first, Failed, STORE_ERROR, recorded) else first
  }

  /** Version k is a claim: it moved the document into Processing. */
  predicate IsClaim(v: seq<Body>, k: nat) {
    0 < k < |v| && v[k - 1].state != Processing && v[k] == v[k - 1].(state := Processing)
  }

  /** What a run's calls leave on the way from the versions v to the versions w, in any environment, the
      run having started from copy b. If the claim won, it is one of the new versions, and every other
      call that did not fail left a version from there on that shows what it wrote; if the claim failed,
      this is true of its recording; and it was lost only to another claim. */
  ghost predicate Took(b: Body, v: seq<Body>, w: seq<Body>, claim: Outcome, calls: seq<Call>)
    requires v != []
  {
    && (claim.Lost? ==> Declined(b, v, w))
    && (claim.Won? ==> exists from :: |v| <= from && IsClaim(w, from) && Effective(w, from, calls))
    && (claim.Errored? ==> Effective(w, |v| - 1, calls))
  }

  /** The newest of the versions w is a claim, and b is the copy that it left. */
  ghost predicate Begun(v: seq<Body>, w: seq<Body>, b: Body, calls: seq<Call>) {
    |v| < |w| && IsClaim(w, |w| - 1) && Showing(w, |w| - 1, b, calls)
  }

  lemma BegunHere(v: seq<Body>, w: seq<Body>, b: Body)
    requires |v| < |w| && IsClaim(w, |w| - 1) && b == w[|w| - 1]
    ensures Begun(v, w, b, [Call(SetState(Processing), Won)])
  {
    assert Alike(b, w[|w| - 1]) && Done(SetState(Processing), w[|w| - 1]);
  }

  /** The rest of a run that won its claim, made from the copy that the claim left. */
  lemma TookFromClaim(start: Body, v: seq<Body>, claimed: seq<Body>, w: seq<Body>, b: Body, calls: seq<Call>,
                      more: seq<Call>)
    requires v != [] && Begun(v, claimed, b, calls) && claimed <= w && Carries(claimed, w, b, calls, more)
    ensures Took(start, v, w, Won, more)
  {
    var from := |claimed| - 1;
    assert Showing(w, from, b, more);
    assert w[from] == claimed[from] && w[from - 1] == claimed[from - 1];
  }

  ghost predicate ShowsState(v: seq<Body>, from: nat, st: ProcessingState) {
    exists k :: from <= k < |v| && v[k].state == st
  }

  ghost predicate ShowsLog(v: seq<Body>, from: nat, message: string) {
    exists k :: from <= k < |v| && v[k].log == message
  }

  lemma CallIsSeen(v: seq<Body>, from: nat, calls: seq<Call>, c: Call)
    requires Effective(v, from, calls) && c in calls && !c.outcome.Errored?
    ensures Seen(v, from, c.update)
    ensures c.update.SetState? ==> ShowsState(v, from, c.update.state)
    ensures c.update.SetLog? ==> ShowsLog(v, from, c.update.log)
  {
    var i :| 0 <= i < |calls| && calls[i] == c;
    assert TookEffect(v, from, calls, i);
    var k :| from <= k < |v| && Done(c.update, v[k]);
  }

  lemma EndIsSeen(v: seq<Body>, from: nat, calls: seq<Call>, st: ProcessingState, message: string,
                  outcomes: seq<Outcome>)
    requires EndOutcomes(outcomes) && NoneErrored(outcomes)
             && Effective(v, from, EndCalls(calls, st, message, outcomes))
    ensures ShowsState(v, from, st) && ShowsLog(v, from, message)
  {
    CallIsSeen(v, from, EndCalls(calls, st, message, outcomes), Call(SetState(st), outcomes[0]));
    CallIsSeen(v, from, EndCalls(calls, st, message, outcomes), Call(SetLog(message), outcomes[1]));
  }

  /** A claim is lost only to a claim: the copy b was in Processing, or some version is, from the newest
      one at the start on. */
  ghost predicate Declined(b: Body, v: seq<Body>, w: seq<Body>) {
    b.state == Processing || (v != [] && ShowsState(w, |v| - 1, Processing))
  }

  lemma LostIsDeclined(b: Body, v: seq<Body>, w: seq<Body>, c: Body)
    requires v != [] && Shows(v, w, b, c, [], SetState(Processing), Lost)
    ensures Declined(b, v, w)
  {
    if b.state != Processing {
      assert Poised(v, |v| - 1, b, [], SetState(Processing));
      CallIsSeen(w, |v| - 1, [] + [Call(SetState(Processing), Lost)], Call(SetState(Processing), Lost));
    }
  }

  /** How a run begins: with its claim; an error of that is recorded. */
  method ClaimDocument(db: Store, j: Document) returns (won: bool, ghost claim: Outcome, ghost recorded: seq<Outcome>)
    requires db.Valid() && db.Coherent(j)
    modifies db, j
    ensures db.Valid() && old(db.versions) <= db.versions && j.revision < |db.versions|
    ensures won == claim.Won? && EndOutcomes(recorded)
    ensures won ==> j.body.state == Processing && j.revision < |db.versions| - 1
    ensures won ==> Begun(old(db.versions), db.versions, j.body, ClaimCalls(claim, recorded))
    ensures db.errors == old(db.errors) + Fails(claim) + FailsIn(recorded)
    ensures !won ==> Took(old(j.body), old(db.versions), db.versions, claim, ClaimCalls(claim, recorded))
    ensures Faultless(old(db.schedule)) ==>
              !claim.Errored? && NoneErrored(recorded) && Steady(db, j, |old(db.own)|, ClaimCalls(claim, recorded))
    ensures old(db.schedule) == [] ==>
              && Quiet(db, j) && ClaimedAlone(old(j.body), old(db.versions), won, db.versions)
              && (won ==> j.body == db.Last())
  {
    var processing := SetState(Processing);
    ghost var n := |db.own|;
    assert db.own[n..] == [];
    var updated, failed := UpdateDocument(db, j, processing, n, []);
    claim, recorded, won := OutcomeOf(updated, failed), [Lost, Lost], updated;
    ghost var first := [Call(processing, claim)];
    assert [] + first == first;
    if failed {
      assert Poised(db.versions, |old(db.versions)| - 1, j.body, first, SetState(Failed));
      recorded := End(db, j, Failed, STORE_ERROR, n, first);
    } else if updated {
      BegunHere(old(db.versions), db.versions, j.body);
    } else {
      LostIsDeclined(old(j.body), old(db.versions), db.versions, j.body);
    }
  }

  /** What a run that is left alone does to the versions: nothing if its copy b or the document is in
      Processing, and otherwise a claim and in the end `result`. */
  predicate RanAlone(b: Body, v: seq<Body>, w: seq<Body>, result: Body)
    requires v != []
  {
    var last := v[|v| - 1];
    if b.state == Processing || last.state == Processing then w == v
    else v <= w && |w| > |v| && w[|v|] == last.(state := Processing) && w[|w| - 1] == result
  }

  lemma NotRun(b: Body, v: seq<Body>, w: seq<Body>, result: Body)
    requires v != [] && ClaimedAlone(b, v, false, w)
    ensures RanAlone(b, v, w, result)
  {
  }

  lemma RanFromClaim(b: Body, v: seq<Body>, w: seq<Body>, x: seq<Body>, result: Body)
    requires v != [] && ClaimedAlone(b, v, true, w) && w <= x && x[|x| - 1] == result
    ensures RanAlone(b, v, x, result)
  {
    assert v <= w && x[|v|] == w[|v|];
  }

  function FirstError(errors: seq<Option<string>>): Option<string> {
    if errors == [] then None else if errors[0].Some? then errors[0] else FirstError(errors[1..])
  }

  /** Stages that run one after the other until one fails. */
  method RunStages(errors: seq<Option<string>>) returns (error: Option<string>)
    ensures error == FirstError(errors)
  {
    for i := 0 to |errors|
      invariant FirstError(errors) == FirstError(errors[i..])
    {
      if errors[i].Some? {
        return errors[i];
      }
    }
    return None;
  }

  lemma {:induction false} FirstOfConcat(errors: seq<Option<string>>, last: Option<string>)
    ensures FirstError(errors + [last]) == if FirstError(errors).Some? then FirstError(errors) else last
  {
    if errors == [] {
      assert errors + [last] == [last];
    } else {
      assert (errors + [last])[1..] == errors[1..] + [last];
      FirstOfConcat(errors[1..], last);
    }
  }
}
