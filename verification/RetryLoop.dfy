/** The retry loop of `casUpdate` itself, against a document that other clients keep editing. */
module RetryLoop {

  /** How the store treats one request. `Unacknowledged` stores what it can but loses the answer. */
  datatype Fate = Answered | Refused | Unacknowledged

  /** What happens around one request: the versions that other clients store just before it, and
      the fate of the request. A schedule of rounds is one behaviour of the environment. */
  datatype Round<B> = Round(foreign: seq<B>, fate: Fate)

  datatype Status = Saved | Conflict | StoreError

  function ForeignEdits<B>(schedule: seq<Round<B>>): nat {
    if schedule == [] then 0 else |schedule[0].foreign| + ForeignEdits(schedule[1..])
  }

  /** The next round, and the rounds after it; past the end the environment is quiet. */
  function Head<B>(schedule: seq<Round<B>>): Round<B> {
    if schedule == [] then Round([], Answered) else schedule[0]
  }

  function Later<B>(schedule: seq<Round<B>>): seq<Round<B>> {
    if schedule == [] then [] else schedule[1..]
  }

  predicate Faultless<B>(schedule: seq<Round<B>>) {
    forall i :: 0 <= i < |schedule| ==> schedule[i].fate.Answered?
  }

  /** A caller's copy of the document: `_rev` and everything else. */
  class Thing<B> {
    var revision: nat
    var body: B

    constructor (revision: nat, body: B)
      ensures this.revision == revision && this.body == body
    {
      this.revision, this.body := revision, body;
    }
  }

  /** One stored document with its environment. When the schedule is used up, the other clients
      are done and the store answers every request. `edits` counts the Edit requests, `errors` the
      requests that ended in a store error, and `own` the
      indices of the versions stored through this class; every other version is foreign. */
  class Database<B> {
    var versions: seq<B>
    var schedule: seq<Round<B>>
    ghost var edits: nat
    ghost var errors: nat
    ghost var own: seq<nat>

    ghost predicate Valid()
      reads this
    {
      versions != [] && forall i :: 0 <= i < |own| ==> own[i] < |versions|
    }

    function Last(): (b: B)
      requires versions != []
      reads this
    {
      versions[|versions| - 1]
    }

    constructor (body: B, schedule: seq<Round<B>>)
      ensures Valid() && versions == [body] && this.schedule == schedule && edits == errors == 0 && own == []
    {
      versions, this.schedule, edits, errors, own := [body], schedule, 0, 0, [];
    }

    /** The next round begins: other clients store their versions. */
    method Admit() returns (fate: Fate)
      requires Valid()
      modifies this
      ensures Valid() && edits == old(edits) && own == old(own)
      ensures schedule == Later(old(schedule))
      ensures versions == old(versions) + Head(old(schedule)).foreign
      ensures errors == old(errors) + if fate.Answered? then 0 else 1
      ensures fate == Head(old(schedule)).fate
    {
      var round := Head(schedule);
      fate := round.fate;
      versions, schedule := versions + round.foreign, Later(schedule);
      errors := errors + if fate.Answered? then 0 else 1;
    }

    /** Stores the copy if its revision is the newest one, and answers 409 Conflict otherwise. The
        copy itself keeps its old revision. */
    method Edit(thing: Thing<B>) returns (status: Status)
      requires Valid()
      modifies this
      ensures Valid() && edits == old(edits) + 1 && errors == old(errors) + if status.StoreError? then 1 else 0
      ensures var seen, fate := old(versions) + Head(old(schedule)).foreign, Head(old(schedule)).fate;
              if thing.revision != |seen| - 1 then
                && status == (if fate.Answered? then Conflict else StoreError)
                && versions == seen && own == old(own)
              else
                && status == (if fate.Answered? then Saved else StoreError)
                && versions == (if fate.Refused? then seen else seen + [thing.body])
                && own == if fate.Refused? then old(own) else old(own) + [|seen|]
      ensures schedule == Later(old(schedule))
    {
      var fate := Admit();
      edits := edits + 1;
      var current := thing.revision == |versions| - 1;
      status := if !fate.Answered? then StoreError else if current then Saved else Conflict;
      if current && !fate.Refused? {
        own := own + [|versions|];
        versions := versions + [thing.body];
      }
    }

    /** Overwrites the copy with the newest version, as RefreshFromDB does. */
    method Refresh(thing: Thing<B>) returns (ok: bool)
      requires Valid() && thing as object != this
      modifies this, thing
      ensures Valid() && edits == old(edits) && own == old(own)
      ensures versions == old(versions) + Head(old(schedule)).foreign
      ensures schedule == Later(old(schedule))
      ensures ok == Head(old(schedule)).fate.Answered? && errors == old(errors) + if ok then 0 else 1
      ensures if ok then thing.revision == |versions| - 1 && thing.body == Last()
              else thing.revision == old(thing.revision) && thing.body == old(thing.body)
    {
      var fate := Admit();
      ok := fate.Answered?;
      if ok {
        thing.revision, thing.body := |versions| - 1, versions[|versions| - 1];
      }
    }

    /** A copy whose revision is the newest one has the newest body. */
    ghost predicate Coherent(thing: Thing<B>)
      reads this, thing
    {
      thing.revision < |versions| && (thing.revision == |versions| - 1 ==> thing.body == Last())
    }

    /** The number of versions that others stored since there were `count` of them and `mine` of
        those were stored here. */
    ghost function Foreign(count: nat, mine: nat): (k: int)
      reads this
    {
      (|versions| - count) - (|own| - mine)
    }
  }

  /** The store part of one iteration: Edit, and after a 409 the refresh of the copy. */
  method EditOrRefresh<B>(db: Database<B>, thing: Thing<B>) returns (status: Status)
    requires db.Valid() && thing as object != db && thing.revision < |db.versions|
    modifies db, thing
    ensures db.Valid() && old(db.versions) <= db.versions && db.edits == old(db.edits) + 1
    ensures 0 <= db.Foreign(|old(db.versions)|, |old(db.own)|) ==
              ForeignEdits(old(db.schedule)) - ForeignEdits(db.schedule)
    ensures Faultless(old(db.schedule)) ==> !status.StoreError? && Faultless(db.schedule)
    ensures |db.schedule| <= |old(db.schedule)| && thing.revision < |db.versions|
    ensures db.errors == old(db.errors) + if status.StoreError? then 1 else 0
    ensures status.Saved? ==>
              && db.own == old(db.own) + [|db.versions| - 1] && db.versions == old(db.versions) + [old(thing.body)]
              && thing.body == db.Last() && thing.revision == |db.versions| - 2 == old(thing.revision)
    ensures status.Conflict? ==>
              && db.own == old(db.own) && thing.revision == |db.versions| - 1 && thing.body == db.Last()
              && (old(thing.revision) == |old(db.versions)| - 1 ==> |db.versions| > |old(db.versions)|)
    ensures status.StoreError? ==>
              && old(db.own) <= db.own && |db.own| <= |old(db.own)| + 1
              && thing.revision == old(thing.revision) && thing.body == old(thing.body)
  {
    status := db.Edit(thing);
    if status.Conflict? {
      var ok := db.Refresh(thing);
      if !ok {
        status := StoreError;
      }
    }
  }

  /** The generic compare-and-swap update, from any copy of a revision that the store has given out.
      `true` means that the newest version at the return is this call's updater applied to the
      version right before it, which had failed the done test; only a first Edit that takes effect at
      once stores the caller's own body instead, which is the same if the copy was coherent. `false`
      without an error means that the call stored nothing and that its copy passes the done test, a
      copy that is either the caller's own or the newest version. Whatever the others do, the call
      sends at most two Edits plus one for each version that others stored meanwhile. It fails
      exactly if one of its requests did, which is then its last one, and the copy is left with the
      updater applied. */
  method CasUpdate<B>(db: Database<B>, thing: Thing<B>, updater: B -> B, doneMetric: B -> bool)
    returns (updated: bool, failed: bool)
    requires db.Valid() && thing as object != db && thing.revision < |db.versions|
    modifies db, thing
    ensures db.Valid() && old(db.versions) <= db.versions && thing.revision < |db.versions|
    ensures updated ==>
              && !failed && |db.versions| > |old(db.versions)|
              && db.own == old(db.own) + [|db.versions| - 1]
              && thing.body == db.Last() && thing.revision == |db.versions| - 2
    ensures updated ==>
              var before := if db.edits == old(db.edits) + 1 then old(thing.body) else db.versions[|db.versions| - 2];
              && !doneMetric(before) && db.Last() == updater(before)
              && (db.edits == old(db.edits) + 1 ==> thing.revision == old(thing.revision))
    ensures updated && old(db.Coherent(thing)) ==>
              && !doneMetric(db.versions[|db.versions| - 2])
              && db.Last() == updater(db.versions[|db.versions| - 2])
    ensures !updated && !failed ==>
              && db.own == old(db.own) && doneMetric(thing.body)
              && (doneMetric(old(thing.body)) || (old(thing.revision) < thing.revision == |db.versions| - 1
                    && thing.body == db.Last()))
    ensures doneMetric(old(thing.body)) ==>
              && !updated && !failed && db.edits == old(db.edits) && db.versions == old(db.versions)
              && thing.revision == old(thing.revision) && thing.body == old(thing.body)
    ensures failed ==> !updated && old(db.own) <= db.own && |db.own| <= |old(db.own)| + 1
    ensures failed ==>
              var refreshed := thing.revision != old(thing.revision);
              var before := if refreshed then db.versions[thing.revision] else old(thing.body);
              && !doneMetric(before) && thing.body == updater(before)
              && (refreshed ==> |old(db.versions)| - 1 <= thing.revision)
    ensures !failed && old(db.Coherent(thing)) ==> db.Coherent(thing)
    ensures Faultless(old(db.schedule)) ==> !failed && Faultless(db.schedule)
    ensures |db.schedule| <= |old(db.schedule)| && db.errors == old(db.errors) + if failed then 1 else 0
    ensures db.edits - old(db.edits) <= 2 + db.Foreign(|old(db.versions)|, |old(db.own)|)
    ensures ForeignEdits(old(db.schedule)) == ForeignEdits(db.schedule) + db.Foreign(|old(db.versions)|, |old(db.own)|)
  {
    if doneMetric(thing.body) {
      return false, false;
    }
    ghost var stale := if thing.revision == |db.versions| - 1 then 0 else 1;
    while true
      invariant db.Valid() && old(db.versions) <= db.versions && db.own == old(db.own)
      invariant thing.revision < |db.versions| && !doneMetric(thing.body)
      invariant 0 <= stale <= 1 && (stale == 0 ==> thing.revision == |db.versions| - 1)
      invariant db.edits == old(db.edits) ==> thing.body == old(thing.body) && thing.revision == old(thing.revision)
                                              && db.versions == old(db.versions)
      invariant db.edits != old(db.edits) ==> db.edits > old(db.edits) && thing.body == db.Last() && stale == 0
                                              && old(thing.revision) < thing.revision
      invariant db.edits != old(db.edits) ==>
                  |old(db.versions)| - 1 <= thing.revision && thing.body == db.versions[thing.revision]
      invariant Faultless(old(db.schedule)) ==> Faultless(db.schedule)
      invariant |db.schedule| <= |old(db.schedule)| && db.errors == old(db.errors)
      invariant db.edits - old(db.edits) + stale <= 1 + |db.versions| - |old(db.versions)|
      invariant ForeignEdits(old(db.schedule)) == ForeignEdits(db.schedule) + |db.versions| - |old(db.versions)|
      decreases ForeignEdits(db.schedule) + stale
    {
      thing.body := updater(thing.body);
      var status := EditOrRefresh(db, thing);
      if status.StoreError? {
        return false, true;
      }
      if status.Saved? {
        return true, false;
      }
      if doneMetric(thing.body) {
        return false, false;
      }
      stale := 0;
    }
  }

  /** Two calls for the same target from two copies of one stale struct, as the dataset splitter
      marks its dataset finished twice. Although the second copy knows neither the newest revision
      nor the newest body, the second call returns false and adds no version unless another client
      stored a version while it ran, or the store failed one of the two. */
  method UpdateTwice<B(!new)>(db: Database<B>, first: Thing<B>, second: Thing<B>, updater: B -> B,
        doneMetric: B -> bool)
    returns (updated: bool, again: bool, failed: bool, ghost between: seq<B>)
    requires db.Valid() && first as object != db && second as object != db && first != second
    requires first.revision < |db.versions| && second.revision == first.revision && second.body == first.body
    requires forall b :: doneMetric(updater(b))
    modifies db, first, second
    ensures old(db.versions) <= between <= db.versions
    ensures Faultless(old(db.schedule)) ==> !failed
    ensures !failed ==> |db.own| == |old(db.own)| + (if updated then 1 else 0) + (if again then 1 else 0)
    ensures !failed && again ==> |db.versions| > |between| + 1
    ensures !failed ==> db.versions == between || |db.versions| - |between| > if again then 1 else 0
  {
    updated, failed := CasUpdate(db, first, updater, doneMetric);
    between := db.versions;
    assert failed || doneMetric(second.body) || doneMetric(between[|between| - 1]);
    var failedAgain;
    again, failedAgain := CasUpdate(db, second, updater, doneMetric);
    failed := failed || failedAgain;
  }
}
