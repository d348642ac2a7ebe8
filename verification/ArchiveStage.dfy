/** The pipe stage fed by the transform loop: what the two Puts store of a given archive. */
module ArchiveStage {
  import opened Sharing
  import opened Splitter
  import opened PipeStage

  /** The writes of the transform loop, in archive order. */
  function EntryWrites(entries: seq<Entry>, a: int, b: int): seq<Write<Entry>> {
    if entries == [] then []
    else
      var prev, e := entries[..|entries| - 1], entries[|entries| - 1];
      EntryWrites(prev, a, b) + [Write(if Trains(DirOf, prev, e, a, b) then Train else Test, Data(e))]
  }

  /** A transform that succeeds then closes the training tar writer and the test tar writer. */
  function TransformWrites(entries: seq<Entry>, a: int, b: int): seq<Write<Entry>> {
    EntryWrites(entries, a, b) + [Write(Train, TarEnd), Write(Test, TarEnd)]
  }

  function Items(entries: seq<Entry>): seq<Item<Entry>> {
    seq(|entries|, i requires 0 <= i < |entries| => Data(entries[i]))
  }

  lemma {:induction false} ItemsForConcat<T>(x: seq<Write<T>>, y: seq<Write<T>>, side: Side)
    ensures ItemsFor(x + y, side) == ItemsFor(x, side) + ItemsFor(y, side)
  {
    if |x| == 0 {
      assert x + y == y;
    } else {
      assert (x + y)[1..] == x[1..] + y;
      ItemsForConcat(x[1..], y, side);
    }
  }

  lemma {:induction false} EntryWritesAreTheParts(entries: seq<Entry>, a: int, b: int, side: Side)
    ensures ItemsFor(EntryWrites(entries, a, b), side) == Items(Part(DirOf, entries, a, b, side.Train?))
  {
    if entries != [] {
      var prev, e := entries[..|entries| - 1], entries[|entries| - 1];
      EntryWritesAreTheParts(prev, a, b, side);
      assert entries == prev + [e];
      PartOfAppend(DirOf, prev, e, a, b, side.Train?);
      ItemsForConcat(EntryWrites(prev, a, b), [Write(if Trains(DirOf, prev, e, a, b) then Train else Test, Data(e))],
            side);
    }
  }

  /** If both Puts read to the end of file, then in every interleaving each of them has stored, when
      the caller goes on, a complete archive of exactly its part of the split. */
  lemma StageStoresTheSplit(entries: seq<Entry>, a: int, b: int, run: seq<Event>)
    requires var s := Start(TransformWrites(entries, a, b)); Legal(s, run) && NoQuits(run) && Exec(s, run).waits == 3
    ensures var t := Exec(Start(TransformWrites(entries, a, b)), run);
            && t.train.got == Items(Part(DirOf, entries, a, b, true)) + [TarEnd, GzipTrailer]
            && t.test.got == Items(Part(DirOf, entries, a, b, false)) + [TarEnd, GzipTrailer]
  {
    var writes := TransformWrites(entries, a, b);
    EveryPutGetsItsPart(Start(writes), writes, run);
    forall side: Side ensures ItemsFor(writes, side) == Items(Part(DirOf, entries, a, b, side.Train?)) + [TarEnd] {
      EntryWritesAreTheParts(entries, a, b, side);
      ItemsForConcat(EntryWrites(entries, a, b), [Write(Train, TarEnd), Write(Test, TarEnd)], side);
      var ends: seq<Write<Entry>> := [Write(Train, TarEnd), Write(Test, TarEnd)];
      assert ends[1..] == [Write(Test, TarEnd)] && ends[1..][1..] == [];
      assert ItemsFor(ends, side) == [TarEnd];
    }
  }
}
