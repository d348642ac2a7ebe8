/** The dataset splitter: the routing closure and the loop that copies an archive through it. */
module Splitter {
  import opened Allocation
  import opened Documents
  import opened Sharing
  import opened Text

  /** One entry of a tar archive. */
  datatype Entry = Entry(name: string, isDir: bool, body: string)

  /** How reading an archive ends: at its end, at a header that cannot be read, or inside the body of
      one more entry, of which only the given part can be read. */
  datatype SourceEnd = EndOfArchive | BadHeader | BadBody(entry: Entry)

  datatype Source = Source(entries: seq<Entry>, end: SourceEnd)

  function DirOf(e: Entry): string {
    Dir(e.name)
  }

  /** The closure that `splitter` returns, with the counts it captures. */
  class Router {
    const a: int
    const b: int
    var dircounts: map<string, Counts>

    constructor (a: int, b: int)
      ensures this.a == a && this.b == b && dircounts == map[]
    {
      this.a, this.b, dircounts := a, b, map[];
    }

    /** The counts of a directory; a missing key reads as zeros. */
    function CountsOf(dir: string): Counts
      reads this
    {
      if dir in dircounts then dircounts[dir] else Counts(0, 0)
    }

    /** Every directory has the counts of its own entries. */
    ghost predicate Tracks(entries: seq<Entry>)
      reads this
    {
      forall d :: CountsOf(d) == After(CountKey(DirOf, entries, d), a, b)
    }

    /** Picks the writer for the next entry, given the entries before it. */
    method Route(file: string, ghost seen: seq<Entry>, ghost e: Entry) returns (toTrain: bool)
      requires Tracks(seen) && e.name == file
      modifies this
      ensures toTrain == Trains(DirOf, seen, e, a, b)
      ensures Tracks(seen + [e])
    {
      var dir := Dir(file);
      var counts := CountsOf(dir);
      ghost var before := counts;
      var count0ratio1 := counts.train * b;
      var count1ratio0 := counts.test * a;
      if count0ratio1 <= count1ratio0 {
        counts := counts.(train := counts.train + 1);
        toTrain := true;
      } else {
        counts := counts.(test := counts.test + 1);
        toTrain := false;
      }
      assert counts == Count(before, a, b) == After(CountKey(DirOf, seen, dir) + 1, a, b);
      dircounts := dircounts[dir := counts];
      forall d ensures CountsOf(d) == After(CountKey(DirOf, seen + [e], d), a, b) {
        CountOfAppend(DirOf, seen, e, d);
        assert d != dir ==> CountsOf(d) == old(CountsOf(d));
      }
    }
  }

  /** What an entry takes up: its header, and its body. */
  function Cost(e: Entry): nat {
    1 + |e.body|
  }

  function TotalCost(entries: seq<Entry>): nat {
    if entries == [] then 0 else TotalCost(entries[..|entries| - 1]) + Cost(entries[|entries| - 1])
  }

  /** The header of e and a front part of its body. */
  predicate Front(p: Entry, e: Entry) {
    p.name == e.name && p.isDir == e.isDir && p.body <= e.body
  }

  /** A tar writer over a stream that has room for so many headers and body characters before it
      fails. `partial` is an entry whose body is not complete. */
  class TarWriter {
    var entries: seq<Entry>
    var partial: Option<Entry>
    var room: nat
    var closed: bool
    const closes: bool

    constructor (room: nat, closes: bool)
      ensures entries == [] && partial == None && !closed && this.room == room && this.closes == closes
    {
      entries, partial, closed, this.room, this.closes := [], None, false, room, closes;
    }

    method WriteHeader(e: Entry) returns (ok: bool)
      requires partial.None?
      modifies this
      ensures ok <==> old(room) > 0
      ensures partial == (if ok then Some(e.(body := "")) else None) && room == old(room) - if ok then 1 else 0
      ensures entries == old(entries) && closed == old(closed)
    {
      ok := room > 0;
      if ok {
        partial, room := Some(e.(body := "")), room - 1;
      }
    }

    /** Copies a body behind its header. The entry is complete when all of it could be read and written. */
    method Copy(body: string, whole: bool) returns (ok: bool)
      requires partial.Some? && partial.value.body == ""
      modifies this
      ensures ok <==> whole && |body| <= old(room)
      ensures ok ==>
                partial.None? && entries == old(entries) + [old(partial).value.(body := body)]
                && room == old(room) - |body|
      ensures !ok ==>
                partial.Some? && Front(partial.value, old(partial).value.(body := body)) && entries == old(entries)
      ensures closed == old(closed)
    {
      var n := if |body| <= room then |body| else room;
      room := room - n;
      partial := Some(partial.value.(body := body[..n]));
      ok := whole && n == |body|;
      if ok {
        assert body[..n] == body;
        entries, partial := entries + [partial.value], None;
      }
    }

    method Close() returns (ok: bool)
      modifies this
      ensures ok == closes && closed == (old(closed) || ok) && entries == old(entries) && partial == old(partial)
    {
      ok := closes;
      closed := closed || ok;
    }
  }

  /** The parts of a prefix, one entry further. */
  lemma PartOfNext(entries: seq<Entry>, i: nat, a: int, b: int)
    requires i < |entries|
    ensures entries[..i + 1] == entries[..i] + [entries[i]]
    ensures var toTrain := Trains(DirOf, entries[..i], entries[i], a, b);
            && Part(DirOf, entries[..i + 1], a, b, toTrain) == Part(DirOf, entries[..i], a, b, toTrain) + [entries[i]]
            && Part(DirOf, entries[..i + 1], a, b, !toTrain) == Part(DirOf, entries[..i], a, b, !toTrain)
  {
    assert entries[..i + 1] == entries[..i] + [entries[i]];
    PartOfAppend(DirOf, entries[..i], entries[i], a, b, true);
    PartOfAppend(DirOf, entries[..i], entries[i], a, b, false);
  }

  lemma CostOfAppend(entries: seq<Entry>, e: Entry)
    ensures TotalCost(entries + [e]) == TotalCost(entries) + Cost(e)
  {
    assert (entries + [e])[..|entries|] == entries;
  }

  /** The two parts together take up what the archive does. */
  lemma {:induction false} PartsShareTheCost(entries: seq<Entry>, a: int, b: int)
    ensures TotalCost(Part(DirOf, entries, a, b, true)) + TotalCost(Part(DirOf, entries, a, b, false))
         == TotalCost(entries)
  {
    if entries != [] {
      var prev, e := entries[..|entries| - 1], entries[|entries| - 1];
      PartsShareTheCost(prev, a, b);
      assert entries == prev + [e];
      PartOfAppend(DirOf, prev, e, a, b, true);
      PartOfAppend(DirOf, prev, e, a, b, false);
      CostOfAppend(Part(DirOf, prev, a, b, Trains(DirOf, prev, e, a, b)), e);
    }
  }

  /** The part of a prefix costs no more than the whole part. */
  lemma {:induction false} PartCostGrows(entries: seq<Entry>, i: nat, a: int, b: int, side: bool)
    requires i <= |entries|
    ensures TotalCost(Part(DirOf, entries[..i], a, b, side)) <= TotalCost(Part(DirOf, entries, a, b, side))
    decreases |entries| - i
  {
    if i == |entries| {
      assert entries[..i] == entries;
    } else {
      PartCostGrows(entries, i + 1, a, b, side);
      PartOfNext(entries, i, a, b);
      CostOfAppend(Part(DirOf, entries[..i], a, b, side), entries[i]);
    }
  }

  /** Entry i still fits into its writer, if the whole part does; what is left over then fits the rest. */
  lemma NextCost(entries: seq<Entry>, i: nat, a: int, b: int)
    requires i < |entries|
    ensures var side := Trains(DirOf, entries[..i], entries[i], a, b);
            && TotalCost(Part(DirOf, entries[..i + 1], a, b, side)) ==
                  TotalCost(Part(DirOf, entries[..i], a, b, side)) + Cost(entries[i])
            && TotalCost(Part(DirOf, entries[..i + 1], a, b, side)) <= TotalCost(Part(DirOf, entries, a, b, side))
  {
    PartOfNext(entries, i, a, b);
    var side := Trains(DirOf, entries[..i], entries[i], a, b);
    CostOfAppend(Part(DirOf, entries[..i], a, b, side), entries[i]);
    PartCostGrows(entries, i + 1, a, b, side);
  }

  /** Routes one entry and copies it; `whole` says whether all of its body can be read. */
  method CopyEntry(router: Router, e: Entry, whole: bool, train: TarWriter, test: TarWriter, ghost seen: seq<Entry>)
    returns (ok: bool)
    requires train != test && train.partial.None? && test.partial.None? && router.Tracks(seen)
    modifies router, train, test
    ensures router.Tracks(seen + [e])
    ensures train.closed == old(train.closed) && test.closed == old(test.closed)
    ensures var toTrain := Trains(DirOf, seen, e, router.a, router.b);
            && (toTrain ==>
                  Copied(e, whole, ok, old(train.entries), old(train.room), train.entries, train.partial, train.room)
                            && test.entries == old(test.entries) && test.partial.None? && test.room == old(test.room))
            && (!toTrain ==>
                  Copied(e, whole, ok, old(test.entries), old(test.room), test.entries, test.partial, test.room)
                             && train.entries == old(train.entries) && train.partial.None?
                                   && train.room == old(train.room))
  {
    var toTrain := router.Route(e.name, seen, e);
    var tw := if toTrain then train else test;
    ok := tw.WriteHeader(e);
    if ok {
      ok := tw.Copy(e.body, whole);
    }
  }

  /** What copying an entry does to its writer. */
  predicate Copied(e: Entry, whole: bool, ok: bool, entries: seq<Entry>, room: nat, newEntries: seq<Entry>,
                   partial: Option<Entry>, newRoom: nat) {
    && (ok <==> whole && Cost(e) <= room)
    && (ok ==> newEntries == entries + [e] && partial.None? && newRoom == room - Cost(e))
    && (!ok ==> newEntries == entries && (partial.None? || Front(partial.value, e)))
  }

  /** Whether nothing fails: the source ends well, and both writers have room for their parts and close. */
  predicate Succeeds(source: Source, trainRoom: nat, trainCloses: bool, testRoom: nat, testCloses: bool,
                     a: int, b: int) {
    && source.end.EndOfArchive?
    && TotalCost(Part(DirOf, source.entries, a, b, true)) <= trainRoom && trainCloses
    && TotalCost(Part(DirOf, source.entries, a, b, false)) <= testRoom && testCloses
  }

  /** The entry behind the first n, of which the source may not have the whole body. */
  function NextEntry(source: Source, n: nat): Option<Entry>
    requires n <= |source.entries|
  {
    if n < |source.entries| then Some(source.entries[n])
    else if source.end.BadBody? then Some(source.end.entry) else None
  }

  /** The writers hold the parts of the first n entries, and at most a front part of the next entry,
      in the writer it belongs to. */
  ghost predicate Holds(source: Source, n: nat, train: seq<Entry>, trainPartial: Option<Entry>, test: seq<Entry>,
                        testPartial: Option<Entry>, a: int, b: int) {
    && n <= |source.entries|
    && train == Part(DirOf, source.entries[..n], a, b, true) && test == Part(DirOf, source.entries[..n], a, b, false)
    && (trainPartial.Some? || testPartial.Some? ==>
          var next := NextEntry(source, n);
          next.Some? &&
          if Trains(DirOf, source.entries[..n], next.value, a, b)
          then testPartial.None? && Front(trainPartial.value, next.value)
          else trainPartial.None? && Front(testPartial.value, next.value))
  }

  /** The next entry has been copied. */
  lemma HoldsNext(source: Source, i: nat, train: seq<Entry>, test: seq<Entry>, newTrain: seq<Entry>,
        newTest: seq<Entry>, a: int, b: int)
    requires i < |source.entries| && Holds(source, i, train, None, test, None, a, b)
    requires if Trains(DirOf, source.entries[..i], source.entries[i], a, b)
             then newTrain == train + [source.entries[i]] && newTest == test
             else newTrain == train && newTest == test + [source.entries[i]]
    ensures Holds(source, i + 1, newTrain, None, newTest, None, a, b)
  {
    PartOfNext(source.entries, i, a, b);
  }

  /** What both writers still have room for, in terms of what they had. */
  predicate RoomLeft(entries: seq<Entry>, room: nat, all: nat) {
    room + TotalCost(entries) == all
  }

  /** Both writers have room for the parts of the first n entries. */
  predicate FitsFirst(entries: seq<Entry>, n: nat, trainRoom: nat, testRoom: nat, a: int, b: int)
    requires n <= |entries|
  {
    && TotalCost(Part(DirOf, entries[..n], a, b, true)) <= trainRoom
    && TotalCost(Part(DirOf, entries[..n], a, b, false)) <= testRoom
  }

  /** If the next entry does not fit, neither do the parts. */
  lemma TooBig(source: Source, i: nat, train: seq<Entry>, trainRoom: nat, trainAll: nat, test: seq<Entry>,
               testRoom: nat, testAll: nat, a: int, b: int)
    requires i < |source.entries| && Holds(source, i, train, None, test, None, a, b)
    requires RoomLeft(train, trainRoom, trainAll) && RoomLeft(test, testRoom, testAll)
    requires Cost(source.entries[i])
             > if Trains(DirOf, source.entries[..i], source.entries[i], a, b) then trainRoom else testRoom
    ensures !Succeeds(source, trainAll, true, testAll, true, a, b)
    ensures !FitsFirst(source.entries, i + 1, trainAll, testAll, a, b)
  {
    NextCost(source.entries, i, a, b);
  }

  /** One round of the loop: entry i. */
  method CopyNext(source: Source, i: nat, router: Router, train: TarWriter, test: TarWriter, ghost trainAll: nat,
        ghost testAll: nat)
    returns (ok: bool)
    requires train != test && i < |source.entries| && router.Tracks(source.entries[..i])
    requires Holds(source, i, train.entries, None, test.entries, None, router.a, router.b)
             && train.partial == test.partial == None
    requires RoomLeft(train.entries, train.room, trainAll) && RoomLeft(test.entries, test.room, testAll)
    modifies router, train, test
    ensures train.closed == old(train.closed) && test.closed == old(test.closed)
    ensures Holds(source, if ok then i + 1 else i, train.entries, train.partial, test.entries, test.partial,
              router.a, router.b)
    ensures ok ==> router.Tracks(source.entries[..i + 1]) && train.partial == test.partial == None
    ensures ok ==> RoomLeft(train.entries, train.room, trainAll) && RoomLeft(test.entries, test.room, testAll)
    ensures !ok ==> !Succeeds(source, trainAll, true, testAll, true, router.a, router.b)
    ensures !ok ==> !FitsFirst(source.entries, i + 1, trainAll, testAll, router.a, router.b)
  {
    ghost var e, x, xRoom, y, yRoom := source.entries[i], train.entries, train.room, test.entries, test.room;
    assert source.entries[..i + 1] == source.entries[..i] + [e];
    ok := CopyEntry(router, source.entries[i], true, train, test, source.entries[..i]);
    if ok {
      HoldsNext(source, i, x, y, train.entries, test.entries, router.a, router.b);
      CostOfAppend(x, e);
      CostOfAppend(y, e);
    } else {
      TooBig(source, i, x, xRoom, trainAll, y, yRoom, testAll, router.a, router.b);
    }
  }

  /** The loop stopped behind n entries: at the first one for which there is no room, or at the end. */
  predicate StoppedAt(source: Source, n: nat, trainRoom: nat, testRoom: nat, a: int, b: int) {
    && n <= |source.entries| && FitsFirst(source.entries, n, trainRoom, testRoom, a, b)
    && (n < |source.entries| ==> !FitsFirst(source.entries, n + 1, trainRoom, testRoom, a, b))
  }

  /** The loop of `transform`: copies every entry to the writer the router picks, until something
      fails. */
  method CopyEntries(source: Source, train: TarWriter, test: TarWriter, a: int, b: int) returns (ok: bool, ghost n: nat)
    requires train != test && train.entries == test.entries == [] && train.partial == test.partial == None
    modifies train, test
    ensures ok <==> Succeeds(source, old(train.room), true, old(test.room), true, a, b)
    ensures Holds(source, n, train.entries, train.partial, test.entries, test.partial, a, b)
    ensures ok ==> n == |source.entries| && train.partial == test.partial == None
    ensures StoppedAt(source, n, old(train.room), old(test.room), a, b)
    ensures train.closed == old(train.closed) && test.closed == old(test.closed)
  {
    var router := new Router(a, b);
    assert source.entries[..0] == [];
    for i := 0 to |source.entries|
      invariant router.a == a && router.b == b && router.Tracks(source.entries[..i])
      invariant Holds(source, i, train.entries, None, test.entries, None, a, b)
      invariant train.partial == test.partial == None
      invariant train.closed == old(train.closed) && test.closed == old(test.closed)
      invariant RoomLeft(train.entries, train.room, old(train.room))
            && RoomLeft(test.entries, test.room, old(test.room))
    {
      ok := CopyNext(source, i, router, train, test, old(train.room), old(test.room));
      if !ok {
        return false, i;
      }
    }
    n := |source.entries|;
    assert source.entries[..n] == source.entries;
    if source.end.BadBody? {
      ok := CopyEntry(router, source.end.entry, false, train, test, source.entries);
      return false, n;
    }
    ok := source.end.EndOfArchive?;
  }

  /** Reads the source to its end and copies every entry to the writer the router picks. It
      succeeds exactly when nothing fails; then both parts are complete and both writers are
      closed. Otherwise the writers hold the parts of the entries up to the first one for which there
      is no room, and at most a front part of that; neither is closed unless all was copied, and the
      test writer only behind the training writer. */
  method Transform(source: Source, train: TarWriter, test: TarWriter, a: int, b: int) returns (ok: bool)
    requires train != test && train.entries == test.entries == [] && train.partial == test.partial == None
    requires !train.closed && !test.closed
    modifies train, test
    ensures ok <==> Succeeds(source, old(train.room), train.closes, old(test.room), test.closes, a, b)
    ensures ok ==> train.closed && test.closed && train.partial == test.partial == None
    ensures ok ==> train.entries == Part(DirOf, source.entries, a, b, true)
    ensures ok ==> test.entries == Part(DirOf, source.entries, a, b, false)
    ensures exists n ::
              && Holds(source, n, train.entries, train.partial, test.entries, test.partial, a, b)
              && StoppedAt(source, n, old(train.room), old(test.room), a, b)
    ensures var copied := Succeeds(source, old(train.room), true, old(test.room), true, a, b);
            train.closed == (copied && train.closes) && test.closed == (copied && train.closes && test.closes)
  {
    ghost var n;
    ok, n := CopyEntries(source, train, test, a, b);
    if ok {
      assert source.entries[..n] == source.entries;
      ok := train.Close();
      if ok {
        ok := test.Close();
      }
    }
    assert Holds(source, n, train.entries, train.partial, test.entries, test.partial, a, b);
    assert StoppedAt(source, n, old(train.room), old(test.room), a, b);
  }
}
