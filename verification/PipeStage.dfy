/** The concurrent stage of SplitDatafile: one goroutine transforms the archive into two pipes, two
    goroutines store what they read from the pipes, and the caller waits for all three.

    A pipe is synchronous: a write into it blocks until readers have taken all of it. Between the
    tar writers and the pipes sit gzip writers, which hold items back and hand any front part of
    what they hold to the pipe whenever they like; closing one hands over the rest and a trailer. */
module PipeStage {

  datatype Side = Train | Test

  /** What travels: an archive entry, the end mark of a tar archive, the trailer of a gzip stream. */
  datatype Item<T> = Data(entry: T) | TarEnd | GzipTrailer

  datatype Write<T> = Write(side: Side, item: Item<T>)

  /** One pipe with the gzip writer in front of it and the Put behind it. `inPipe` is what a blocked
      write still offers; `got` is what the Put has read. `quit` marks a Put that returned early. */
  datatype Lane<T> = Lane(held: seq<Item<T>>, inPipe: seq<Item<T>>, closed: bool, got: seq<Item<T>>, done: bool,
        quit: bool)

  /** `todo` is what the tar writers still have to write. After that the transform goroutine puts its
      result into the buffered channel and runs the deferred calls; `closing` counts these five
      steps: report, gzip training, gzip test, pipe training, pipe test. `waits` counts the results
      the caller has received. */
  datatype State<T> = State(todo: seq<Write<T>>, closing: nat, train: Lane<T>, test: Lane<T>, waits: nat)

  function LaneOf<T>(s: State<T>, side: Side): Lane<T> {
    if side.Train? then s.train else s.test
  }

  function WithLane<T>(s: State<T>, side: Side, l: Lane<T>): State<T> {
    if side.Train? then s.(train := l) else s.(test := l)
  }

  function Start<T>(writes: seq<Write<T>>): State<T> {
    var empty := Lane([], [], false, [], false, false);
    State(writes, 0, empty, empty, 0)
  }

  /** The next event: the transform goroutine acts and its gzip writer hands over `n` items, a Put
      reads `n` items, a Put sees the end of its pipe, a Put gives up early, or the caller receives. */
  datatype Event = Transform(n: nat) | Reads(side: Side, n: nat) | EndOfFile(side: Side) | Quits(side: Side) | Receive

  /** The transform goroutine is inside a pipe write until all of that write has been read. */
  predicate Blocked<T>(s: State<T>) {
    |s.train.inPipe| > 0 || |s.test.inPipe| > 0
  }

  predicate Over<T>(l: Lane<T>) {
    l.done || l.quit
  }

  /** The caller waits for the training Put, then the test Put, then the transform. */
  predicate Ready<T>(s: State<T>) {
    match s.waits
    case 0 => Over(s.train)
    case 1 => Over(s.test)
    case 2 => s.closing >= 1
    case _ => false
  }

  predicate Enabled<T>(s: State<T>, e: Event) {
    match e
    case Transform(n) =>
      !Blocked(s) && if |s.todo| > 0 then n <= |LaneOf(s, s.todo[0].side).held| + 1 else s.closing < 5
    case Reads(side, n) => 1 <= n <= |LaneOf(s, side).inPipe| && !Over(LaneOf(s, side))
    case EndOfFile(side) => |LaneOf(s, side).inPipe| == 0 && LaneOf(s, side).closed && !Over(LaneOf(s, side))
    case Quits(side) => !Over(LaneOf(s, side))
    case Receive => Ready(s)
  }

  function Hold<T>(l: Lane<T>, item: Item<T>, n: nat): Lane<T>
    requires n <= |l.held| + 1
  {
    l.(held := (l.held + [item])[n..], inPipe := (l.held + [item])[..n])
  }

  function Flush<T>(l: Lane<T>): Lane<T> {
    l.(held := [], inPipe := l.held + [GzipTrailer])
  }

  function Next<T>(s: State<T>, e: Event): State<T>
    requires Enabled(s, e)
  {
    match e
    case Transform(n) =>
      if |s.todo| > 0 then
        var w := s.todo[0];
        WithLane(s, w.side, Hold(LaneOf(s, w.side), w.item, n)).(todo := s.todo[1..])
      else
        (match s.closing
         case 0 => s
         case 1 => s.(train := Flush(s.train))
         case 2 => s.(test := Flush(s.test))
         case 3 => s.(train := s.train.(closed := true))
         case _ => s.(test := s.test.(closed := true))).(closing := s.closing + 1)
    case Reads(side, n) =>
      var l := LaneOf(s, side);
      WithLane(s, side, l.(inPipe := l.inPipe[n..], got := l.got + l.inPipe[..n]))
    case EndOfFile(side) => WithLane(s, side, LaneOf(s, side).(done := true))
    case Quits(side) => WithLane(s, side, LaneOf(s, side).(quit := true))
    case Receive => s.(waits := s.waits + 1)
  }

  predicate Legal<T>(s: State<T>, run: seq<Event>)
    decreases |run|
  {
    run == [] || (Enabled(s, run[0]) && Legal(Next(s, run[0]), run[1..]))
  }

  function Exec<T>(s: State<T>, run: seq<Event>): State<T>
    requires Legal(s, run)
    decreases |run|
  {
    if run == [] then s else Exec(Next(s, run[0]), run[1..])
  }

  /** The items that writes bring to one side. */
  function ItemsFor<T>(writes: seq<Write<T>>, side: Side): seq<Item<T>> {
    if |writes| == 0 then []
    else (if writes[0].side == side then [writes[0].item] else []) + ItemsFor(writes[1..], side)
  }

  predicate GzipClosed<T>(s: State<T>, side: Side) {
    s.closing >= if side.Train? then 2 else 3
  }

  /** Everything destined for a side has been read, is in its pipe, is held back or is still to come,
      in this order; a pipe is closed only after both trailers have gone through. */
  ghost predicate LaneInv<T>(s: State<T>, side: Side, all: seq<Item<T>>) {
    var l := LaneOf(s, side);
    && l.got + (l.inPipe + (l.held
          + (if GzipClosed(s, side) then [] else ItemsFor(s.todo, side) + [GzipTrailer]))) == all
    && (l.closed <==> s.closing >= if side.Train? then 4 else 5)
    && (GzipClosed(s, side) ==> |l.held| == 0)
    && (l.closed ==> |l.inPipe| == 0)
    && (l.done ==> l.closed)
  }

  ghost predicate Inv<T>(s: State<T>, train: seq<Item<T>>, test: seq<Item<T>>) {
    && LaneInv(s, Train, train) && LaneInv(s, Test, test)
    && s.closing <= 5 && (s.closing > 0 ==> |s.todo| == 0)
    && (|s.train.inPipe| == 0 || |s.test.inPipe| == 0)
    && (s.closing >= 4 ==> !Blocked(s))
    && s.waits <= 3
    && (s.waits >= 1 ==> Over(s.train)) && (s.waits >= 2 ==> Over(s.test))
  }

  lemma HoldKeeps<T>(l: Lane<T>, item: Item<T>, n: nat, rest: seq<Item<T>>)
    requires n <= |l.held| + 1 && |l.inPipe| == 0
    ensures var h := Hold(l, item, n);
            h.got + (h.inPipe + (h.held + rest)) == l.got + (l.inPipe + (l.held + ([item] + rest)))
  {
  }

  lemma ReadKeeps<T>(got: seq<Item<T>>, inPipe: seq<Item<T>>, n: nat, rest: seq<Item<T>>)
    requires n <= |inPipe|
    ensures got + inPipe[..n] + (inPipe[n..] + rest) == got + (inPipe + rest)
  {
    assert inPipe[..n] + inPipe[n..] == inPipe;
  }

  lemma WriteKeeps<T>(s: State<T>, n: nat, side: Side, all: seq<Item<T>>)
    requires LaneInv(s, side, all) && s.closing == 0 && |s.todo| > 0 && Enabled(s, Transform(n))
    ensures LaneInv(Next(s, Transform(n)), side, all)
  {
    var l, w := LaneOf(s, side), s.todo[0];
    if w.side == side {
      var rest := ItemsFor(s.todo[1..], side) + [GzipTrailer];
      HoldKeeps(l, w.item, n, rest);
      assert ItemsFor(s.todo, side) + [GzipTrailer] == [w.item] + rest;
    }
  }

  lemma TransformKeeps<T>(s: State<T>, n: nat, side: Side, all: seq<Item<T>>)
    requires LaneInv(s, side, all) && s.closing <= 5 && (s.closing > 0 ==> |s.todo| == 0) && Enabled(s, Transform(n))
    ensures LaneInv(Next(s, Transform(n)), side, all)
  {
    if |s.todo| > 0 { WriteKeeps(s, n, side, all); }
  }

  lemma ReadsKeep<T>(s: State<T>, side: Side, n: nat, train: seq<Item<T>>, test: seq<Item<T>>)
    requires Inv(s, train, test) && Enabled(s, Reads(side, n))
    ensures Inv(Next(s, Reads(side, n)), train, test)
  {
    var l := LaneOf(s, side);
    ReadKeeps(l.got, l.inPipe, n, l.held
          + (if GzipClosed(s, side) then [] else ItemsFor(s.todo, side) + [GzipTrailer]));
  }

  lemma NextKeeps<T>(s: State<T>, e: Event, train: seq<Item<T>>, test: seq<Item<T>>)
    requires Inv(s, train, test) && Enabled(s, e)
    ensures Inv(Next(s, e), train, test)
  {
    match e
    case Transform(n) => TransformsKeep(s, n, train, test);
    case Reads(side, n) => ReadsKeep(s, side, n, train, test);
    case _ => OverKeeps(s, e, train, test);
  }

  lemma TransformsKeep<T>(s: State<T>, n: nat, train: seq<Item<T>>, test: seq<Item<T>>)
    requires Inv(s, train, test) && Enabled(s, Transform(n))
    ensures Inv(Next(s, Transform(n)), train, test)
  {
    TransformKeeps(s, n, Train, train);
    TransformKeeps(s, n, Test, test);
  }

  lemma OverKeeps<T>(s: State<T>, e: Event, train: seq<Item<T>>, test: seq<Item<T>>)
    requires Inv(s, train, test) && Enabled(s, e) && !e.Transform? && !e.Reads?
    ensures Inv(Next(s, e), train, test)
  {
  }

  lemma {:induction false} ExecKeeps<T>(s: State<T>, run: seq<Event>, train: seq<Item<T>>, test: seq<Item<T>>)
    requires Inv(s, train, test) && Legal(s, run)
    ensures Inv(Exec(s, run), train, test)
    decreases |run|
  {
    if run != [] {
      NextKeeps(s, run[0], train, test);
      ExecKeeps(Next(s, run[0]), run[1..], train, test);
    }
  }

  /** What each Put is to receive: its part of what the tar writers wrote, and the gzip trailer. */
  function Expected<T>(writes: seq<Write<T>>, side: Side): seq<Item<T>> {
    ItemsFor(writes, side) + [GzipTrailer]
  }

  lemma StartsWell<T>(writes: seq<Write<T>>)
    ensures Inv(Start(writes), Expected(writes, Train), Expected(writes, Test))
  {
  }

  function LaneMeasure<T>(l: Lane<T>): nat {
    2 * |l.held| + |l.inPipe| + if Over(l) then 0 else 1
  }

  function Measure<T>(s: State<T>): int {
    4 * |s.todo| + 3 * (5 - s.closing) + LaneMeasure(s.train) + LaneMeasure(s.test) + 3 - s.waits
  }

  /** Every event brings the stage closer to its end, in whatever order they happen. */
  lemma MeasureDecreases<T>(s: State<T>, e: Event)
    requires s.closing <= 5 && s.waits <= 3 && Enabled(s, e)
    ensures Measure(Next(s, e)) < Measure(s)
  {
    if e.Transform? && |s.todo| > 0 {
      var l := LaneOf(s, s.todo[0].side);
      var h := Hold(l, s.todo[0].item, e.n);
      assert |h.held| + |h.inPipe| == |l.held| + 1;
    }
  }

  /** So no run is longer than the measure of its start: the stage terminates without any fairness. */
  lemma {:induction false} RunsAreBounded<T>(s: State<T>, run: seq<Event>, train: seq<Item<T>>, test: seq<Item<T>>)
    requires Inv(s, train, test) && Legal(s, run)
    ensures |run| + Measure(Exec(s, run)) <= Measure(s) && Measure(Exec(s, run)) >= 0
    decreases |run|
  {
    if run != [] {
      NextKeeps(s, run[0], train, test);
      MeasureDecreases(s, run[0]);
      RunsAreBounded(Next(s, run[0]), run[1..], train, test);
    }
  }

  /** Nothing can happen unless a Put gives up. */
  ghost predicate Stuck<T>(s: State<T>) {
    forall e: Event :: Enabled(s, e) ==> e.Quits?
  }

  /** A Put has returned early and left data in its pipe. */
  predicate Abandoned<T>(s: State<T>) {
    (s.train.quit && |s.train.inPipe| > 0) || (s.test.quit && |s.test.inPipe| > 0)
  }

  lemma UnabandonedMoves<T>(s: State<T>, train: seq<Item<T>>, test: seq<Item<T>>) returns (e: Event)
    requires Inv(s, train, test) && !Abandoned(s) && s.waits < 3
    ensures Enabled(s, e) && !e.Quits?
  {
    if |s.train.inPipe| > 0 {
      e := Reads(Train, 1);
    } else if |s.test.inPipe| > 0 {
      e := Reads(Test, 1);
    } else if |s.todo| > 0 || s.closing < 5 {
      e := Transform(0);
    } else if !Over(s.train) {
      e := EndOfFile(Train);
    } else if !Over(s.test) {
      e := EndOfFile(Test);
    } else {
      e := Receive;
    }
  }

  lemma AbandonedOnlyReceives<T>(s: State<T>, train: seq<Item<T>>, test: seq<Item<T>>, e: Event)
    requires Inv(s, train, test) && Abandoned(s) && Enabled(s, e)
    ensures e.Quits? || e.Receive?
  {
  }

  /** In every reachable state in which the caller still waits, the stage is stuck if and only if
      some Put returned early with data in its pipe and the result the caller waits for is missing. */
  lemma StuckIffAbandoned<T>(s: State<T>, writes: seq<Write<T>>, run: seq<Event>)
    requires s == Start(writes) && Legal(s, run) && Exec(s, run).waits < 3
    ensures Stuck(Exec(s, run)) <==> Abandoned(Exec(s, run)) && !Ready(Exec(s, run))
  {
    StartsWell(writes);
    ExecKeeps(s, run, Expected(writes, Train), Expected(writes, Test));
    var t := Exec(s, run);
    if !Abandoned(t) {
      var e := UnabandonedMoves(t, Expected(writes, Train), Expected(writes, Test));
    } else {
      forall e: Event | Enabled(t, e) ensures e.Quits? || e.Receive? {
        AbandonedOnlyReceives(t, Expected(writes, Train), Expected(writes, Test), e);
      }
      if Ready(t) { assert Enabled(t, Receive); }
    }
  }

  function Receives(n: nat): seq<Event> {
    seq(n, _ => Receive)
  }

  /** Once both Puts are over and the transform has reported, the caller has all its results by receiving
      alone: it does not wait for the streams to be closed. */
  lemma {:induction false} CallerGoesOn<T>(s: State<T>)
    requires Over(s.train) && Over(s.test) && s.todo == [] && s.closing >= 1 && s.waits <= 3
    ensures Legal(s, Receives(3 - s.waits)) && Exec(s, Receives(3 - s.waits)).waits == 3
    ensures Exec(s, Receives(3 - s.waits)).closing == s.closing
    decreases 3 - s.waits
  {
    if s.waits < 3 {
      assert Receives(3 - s.waits)[1..] == Receives(2 - s.waits);
      CallerGoesOn(Next(s, Receive));
    }
  }

  ghost predicate NoQuits(run: seq<Event>) {
    forall e :: e in run ==> !e.Quits?
  }

  lemma {:induction false} NobodyQuits<T>(s: State<T>, run: seq<Event>)
    requires Legal(s, run) && NoQuits(run)
    ensures Exec(s, run).train.quit == s.train.quit && Exec(s, run).test.quit == s.test.quit
    decreases |run|
  {
    if run != [] {
      assert run[0] in run && forall e :: e in run[1..] ==> e in run;
      NobodyQuits(Next(s, run[0]), run[1..]);
    }
  }

  /** If both Puts read to the end of file, no interleaving deadlocks: until the caller has all
      three results some event is possible. */
  lemma DeadlockFree<T>(s: State<T>, writes: seq<Write<T>>, run: seq<Event>) returns (e: Event)
    requires s == Start(writes) && Legal(s, run) && NoQuits(run) && Exec(s, run).waits < 3
    ensures Enabled(Exec(s, run), e) && !e.Quits?
  {
    StartsWell(writes);
    ExecKeeps(s, run, Expected(writes, Train), Expected(writes, Test));
    NobodyQuits(s, run);
    e := UnabandonedMoves(Exec(s, run), Expected(writes, Train), Expected(writes, Test));
  }

  /** When the caller has all three results, each Put has received exactly its part and the trailer. */
  lemma EveryPutGetsItsPart<T>(s: State<T>, writes: seq<Write<T>>, run: seq<Event>)
    requires s == Start(writes) && Legal(s, run) && NoQuits(run) && Exec(s, run).waits == 3
    ensures Exec(s, run).train.got == Expected(writes, Train) && Exec(s, run).test.got == Expected(writes, Test)
  {
    StartsWell(writes);
    ExecKeeps(s, run, Expected(writes, Train), Expected(writes, Test));
    NobodyQuits(s, run);
  }

  /** A pipe is closed only after both gzip trailers have been read. */
  lemma ClosedAfterTrailers<T>(s: State<T>, writes: seq<Write<T>>, run: seq<Event>)
    requires s == Start(writes) && Legal(s, run) && (Exec(s, run).train.closed || Exec(s, run).test.closed)
    ensures Exec(s, run).train.got == Expected(writes, Train) && Exec(s, run).test.got == Expected(writes, Test)
  {
    StartsWell(writes);
    ExecKeeps(s, run, Expected(writes, Train), Expected(writes, Test));
  }

  /** Once a Put has left data behind and the other Put goes on reading, the caller waits for ever:
      at most one more event can happen, and it is not the last result. */
  lemma AbandonedHangs<T>(s: State<T>, writes: seq<Write<T>>, run: seq<Event>, more: seq<Event>)
    requires s == Start(writes) && Legal(s, run) && Abandoned(Exec(s, run))
             && !(Exec(s, run).train.quit && Exec(s, run).test.quit)
    requires Legal(Exec(s, run), more) && NoQuits(more)
    ensures |more| <= 1 && Exec(Exec(s, run), more).waits < 2
  {
    StartsWell(writes);
    ExecKeeps(s, run, Expected(writes, Train), Expected(writes, Test));
    var t := Exec(s, run);
    if |more| > 0 {
      AbandonedOnlyReceives(t, Expected(writes, Train), Expected(writes, Test), more[0]);
      NextKeeps(t, more[0], Expected(writes, Train), Expected(writes, Test));
      if |more| > 1 {
        assert more[1] in more;
        AbandonedOnlyReceives(Next(t, more[0]), Expected(writes, Train), Expected(writes, Test), more[1]);
      }
    }
  }
}
