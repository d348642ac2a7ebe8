/** Inputs that show where the guarantees of the dataset pipeline end. */
module PipelineWitnesses {
  import opened Documents
  import opened Allocation
  import opened Text
  import opened Sharing
  import opened Splitter
  import opened Labels
  import opened TrainTest
  import opened IndexLines
  import opened Classification
  import opened Pipeline
  import opened SerialScheduler
  import opened ChangesFeed
  import P = PipeStage

  /** A Put that returns after the first write leaves the caller waiting, whatever else happens, as long
      as the other Put reads on. */
  lemma QuittingPutHangsTheStage<T(!new)>(entry: T) returns (s: P.State<T>, run: seq<P.Event>)
    ensures s == P.Start([P.Write(P.Train, P.Data(entry))]) && P.Legal(s, run) && P.Abandoned(P.Exec(s, run))
    ensures forall more: seq<P.Event> :: P.Legal(P.Exec(s, run), more) && P.NoQuits(more) ==>
              P.Exec(P.Exec(s, run), more).waits < 2
  {
    var writes := [P.Write(P.Train, P.Data(entry))];
    s, run := P.Start(writes), [P.Transform(1), P.Quits(P.Train)];
    assert run[1..] == [P.Quits(P.Train)] && run[1..][1..] == [];
    var s1 := P.Next(s, P.Transform(1));
    assert |s1.train.inPipe| == 1 && P.Legal(s1, run[1..]);
    var s2 := P.Next(s1, P.Quits(P.Train));
    assert P.Exec(s, run) == P.Exec(s1, run[1..]) == P.Exec(s2, []) == s2;
    forall more: seq<P.Event> | P.Legal(P.Exec(s, run), more) && P.NoQuits(more)
      ensures P.Exec(P.Exec(s, run), more).waits < 2
    {
      P.AbandonedHangs(s, writes, run, more);
    }
  }

  /** A first answer that cannot be decoded ends the listener before it has examined any change. */
  method UndecodableFirstAnswer(feed: seq<Change>, answers: seq<Answer>) returns (scheduled: seq<Change>, died: bool)
    requires |feed| == |answers|
    ensures died && scheduled == []
  {
    ghost var handled;
    var polls := [Undecodable];
    scheduled, died, handled := FollowChangesFeed(feed, answers, polls);
    assert EndsFeed(polls, 0);
    assert polls[..handled] == polls && polls[..0] == [];
  }

  /** One file: its directory is a training label and no test label. */
  lemma SingleFileHasNoTestLabel(e: Entry, a: int, b: int)
    requires !e.isDir && b >= 1
    ensures DirOf(e) in TrainingLabels([e], a, b)
    ensures TrainingLabels([e], a, b) != Distinct(Dirs(TestToc([e], a, b)))
  {
    SplitLabelListsAgreeIff([e], a, b);
    OneFile(e);
    LabelsAreDirs([e.name], DirOf(e));
  }

  lemma OneFile(e: Entry)
    requires !e.isDir
    ensures TocOf([e]) == [e.name] && Dirs([e.name]) == [DirOf(e)] && CountKey(DirOf, [e], DirOf(e)) == 1
  {
    assert [e][..0] == [];
  }

  lemma CountOfThree(x: Entry, y: Entry, z: Entry, d: string)
    ensures CountKey(DirOf, [x, y, z], d) ==
              (if DirOf(x) == d then 1 else 0) + (if DirOf(y) == d then 1 else 0) + if DirOf(z) == d then 1 else 0
  {
    assert [x] == [] + [x] && [x, y] == [x] + [y] && [x, y, z] == [x, y] + [z];
    CountOfAppend(DirOf, [], x, d);
    CountOfAppend(DirOf, [x], y, d);
    CountOfAppend(DirOf, [x, y], z, d);
  }

  lemma DirsOfThree(x: Entry, y: Entry, z: Entry)
    requires !x.isDir && !y.isDir && !z.isDir && DirOf(x) != DirOf(y) == DirOf(z)
    ensures FilesOnly([x, y, z]) && Dirs(TocOf([x, y, z])) == [DirOf(x), DirOf(y), DirOf(y)]
  {
    DirsOfToc([x, y, z]);
  }

  lemma SingleComesFirst(x: Entry, y: Entry, z: Entry)
    requires DirOf(x) != DirOf(y) == DirOf(z)
    ensures !SinglesComeLast(DirOf, [x, y, z], [DirOf(x), DirOf(y)])
  {
    CountOfThree(x, y, z, DirOf(x));
    CountOfThree(x, y, z, DirOf(y));
    var labels := [DirOf(x), DirOf(y)];
    assert CountKey(DirOf, [x, y, z], labels[1]) >= 2 && CountKey(DirOf, [x, y, z], labels[0]) < 2;
  }

  /** Three files in directories A, B, B: the test numbers read with the training labels are wrong. */
  lemma TestNumberNamesTheWrongDirectory(x: Entry, y: Entry, z: Entry, a: int, b: int)
    requires !x.isDir && !y.isDir && !z.isDir && DirOf(x) != DirOf(y) == DirOf(z) && b >= 1
    ensures !AllRead(TestToc([x, y, z], a, b), TrainingLabels([x, y, z], a, b))
  {
    DirsOfThree(x, y, z);
    TwoDirectories(DirOf(x), DirOf(y));
    SingleComesFirst(x, y, z);
    TestNumbersReadWithTrainingLabelsIff([x, y, z], a, b);
  }

  lemma TwoDirectories(x: string, y: string)
    requires x != y
    ensures Distinct([x, y]) == Distinct([x, y, y]) == Distinct([x, y, x]) == [x, y] && Grouped([x, y, y])
  {
    assert [x][..0] == [] && [x, y][..1] == [x] && [x, y, y][..2] == [x, y] && [x, y, x][..2] == [x, y];
    assert Distinct([x]) == [x];
  }

  /** A directory that comes back after another one gets a number beyond the label list. */
  lemma RecurringDirectoryHasNoLabel(x: string, y: string)
    requires x != y
    ensures Number([x, y, x], 2) == |Distinct([x, y, x])| == 2
  {
    TwoDirectories(x, y);
    assert Number([x, y, x], 1) == 1;
  }

  /** A name with a space loses its end and its number: the row reads as another file and label. */
  lemma SpaceReplacesTheLabel(x: string, y: string, number: nat, dir: string)
    requires ' ' !in x && ' ' !in y && ' ' !in dir
    ensures FindComponentsFromIndexRow(Row(x + " " + y, number, dir)) == Some((Join(dir, x), y))
  {
    var rest := y + " " + Decimal(number);
    assert Line(x + " " + y, number) == x + " " + rest;
    SplitAtSeparator(x, ' ', rest);
    SplitWithoutSeparator(x, ' ');
    SplitAtSeparator(y, ' ', Decimal(number));
    SplitWithoutSeparator(y, ' ');
    JoinAddsNoSpace(dir, x);
    TwoWords(Join(dir, x), y);
  }

  /** At equal ratios a directory entry takes the only training slot of a directory with one file. */
  lemma HeaderTakesTheLabel(d: string, f: string, body: string)
    requires Canonical(d) && '/' !in f
    ensures d !in TrainingLabels([Entry(d + "/", true, body)] + [Entry(d + "/" + f, false, body)], 1, 1)
  {
    var file := Entry(d + "/" + f, false, body);
    HeaderAndFiles(d, body, [file]);
    HeaderCostsALabelIff([Entry(d + "/", true, body)] + [file], d, body, [file], 1, 1);
  }

  /** A negative answer passes the bounds check. */
  method NegativeAnswerPanics(image: string, labels: seq<string>) returns (t: Translation)
    ensures t.Crashed?
  {
    var one := Decimal(1);
    DecimalIsDigits(1);
    assert one == "1" && "-1"[1..] == one;
    assert ParseInt64("-1") == Some(-1);
    assert image in map[image := "-1"];
    t := TranslateLabels(map[image := "-1"], labels);
  }

  /** Index files that cannot be written do not stop the training job. */
  method UnwritableIndexIsIgnored() returns (r: Saved)
    ensures r.Saved? && r.trainingIndex == None && r.testIndex == None
  {
    var artifact := Artifact(Some(Whole([])), _ => true, false);
    r := SaveTrainTestData(ImageData, true, artifact, artifact);
  }
}
