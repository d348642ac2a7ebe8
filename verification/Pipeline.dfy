/** From the split archives to the index files and the label list of a training job. */
module Pipeline {
  import opened Documents
  import opened Allocation
  import opened Text
  import opened Sharing
  import opened Splitter
  import opened Labels
  import opened TrainTest
  import opened IndexLines
  import opened Classification

  const TRAINING_DIR := "training-data"
  const TESTING_DIR := "test-data"

  datatype LayerType = ImageData | Data

  /** The names of the entries that are not directories, in archive order. */
  function TocOf(entries: seq<Entry>): seq<string> {
    if entries == [] then []
    else TocOf(entries[..|entries| - 1]) + if entries[|entries| - 1].isDir then [] else [entries[|entries| - 1].name]
  }

  /** The archive can be read to its end, no entry is hidden, and every entry can be written. */
  predicate Extractable(source: Source, writable: Entry -> bool) {
    source.end.EndOfArchive? && forall e :: e in source.entries ==> !HasPrefix(e.name, ".") && writable(e)
  }

  /** The table of contents lists the files of the archive, all of them, in archive order: entry i is the
      file at index at[i]. */
  ghost predicate ListsFiles(toc: seq<string>, entries: seq<Entry>, at: seq<nat>) {
    && |at| == |toc|
    && (forall i, j :: 0 <= i < j < |at| ==> at[i] < at[j])
    && (forall i :: 0 <= i < |at| ==> at[i] < |entries| && !entries[at[i]].isDir && entries[at[i]].name == toc[i])
    && (forall k :: 0 <= k < |entries| && !entries[k].isDir ==> k in at)
  }

  lemma ListsNext(toc: seq<string>, entries: seq<Entry>, at: seq<nat>, e: Entry)
    requires ListsFiles(toc, entries, at)
    ensures e.isDir ==> ListsFiles(toc, entries + [e], at)
    ensures !e.isDir ==> ListsFiles(toc + [e.name], entries + [e], at + [|entries|])
  {
    var all := entries + [e];
    assert all[|entries|] == e && forall k :: 0 <= k < |entries| ==> all[k] == entries[k];
    var more := at + [|entries|];
    assert more[|at|] == |entries| && forall i :: 0 <= i < |at| ==> more[i] == at[i];
    forall k | 0 <= k < |all| && !all[k].isDir ensures k in more && (e.isDir ==> k in at) {
      if k < |entries| { assert k in at; }
    }
  }

  lemma {:induction false} TocListsFiles(entries: seq<Entry>) returns (at: seq<nat>)
    ensures ListsFiles(TocOf(entries), entries, at)
  {
    if entries == [] {
      at := [];
    } else {
      var n := |entries| - 1;
      at := TocListsFiles(entries[..n]);
      ListsNext(TocOf(entries[..n]), entries[..n], at, entries[n]);
      assert entries == entries[..n] + [entries[n]];
      if !entries[n].isDir { at := at + [n]; }
    }
  }

  lemma TocOfNext(entries: seq<Entry>, i: nat)
    requires i < |entries|
    ensures TocOf(entries[..i + 1]) == TocOf(entries[..i]) + if entries[i].isDir then [] else [entries[i].name]
  {
    assert entries[..i + 1][..i] == entries[..i];
  }

  /** Extracts an archive and lists its files. It refuses hidden names, and fails when the archive is
      broken or when a file or directory cannot be written. */
  method UntarWithToc(source: Source, writable: Entry -> bool)
    returns (toc: Option<seq<string>>)
    ensures toc.Some? <==>
              source.end.EndOfArchive?
              && forall e :: e in source.entries ==> !(e.name != "" && e.name[0] == '.') && writable(e)
    ensures toc.Some? ==> toc.value == TocOf(source.entries) && exists at :: ListsFiles(toc.value, source.entries, at)
  {
    var names := [];
    for n := 0 to |source.entries|
      invariant names == TocOf(source.entries[..n])
      invariant forall i :: 0 <= i < n ==> !HasPrefix(source.entries[i].name, ".") && writable(source.entries[i])
    {
      var hdr := source.entries[n];
      assert hdr in source.entries && (HasPrefix(hdr.name, ".") <==> hdr.name != "" && hdr.name[0] == '.');
      if HasPrefix(hdr.name, ".") || !writable(hdr) {
        return None;
      }
      TocOfNext(source.entries, n);
      if !hdr.isDir {
        names := names + [hdr.name];
      }
    }
    assert source.entries[..|source.entries|] == source.entries;
    ghost var at := TocListsFiles(source.entries);
    return if source.end.EndOfArchive? then Some(names) else None;
  }

  /** The rows of an index file: entry i of the table of contents behind its directory, with its number. */
  ghost predicate IsIndexOf(rows: seq<string>, toc: seq<string>, dir: string) {
    |rows| == |toc| && forall i {:trigger rows[i]} :: 0 <= i < |toc| ==>
          rows[i] == Row(toc[i], Number(Dirs(toc), i), dir)
  }

  /** An artifact of the dataset, as a training job finds it: the archive, unless it cannot be fetched,
      what of it can be written to disk, and whether its index file can. */
  datatype Artifact = Artifact(archive: Option<Source>, writable: Entry -> bool, indexWritable: bool)

  predicate Ready(artifact: Artifact) {
    artifact.archive.Some? && Extractable(artifact.archive.value, artifact.writable)
  }

  function TocOfArtifact(artifact: Artifact): seq<string>
    requires artifact.archive.Some?
  {
    TocOf(artifact.archive.value.entries)
  }

  /** Fetches, extracts and indexes one artifact. An index file that cannot be written is ignored. */
  method IndexArtifact(artifact: Artifact, dir: string)
    returns (ok: bool, index: Option<seq<string>>, labels: seq<string>)
    ensures ok <==> Ready(artifact)
    ensures ok ==> labels == Distinct(Dirs(TocOfArtifact(artifact)))
    ensures ok ==>
              (index.Some? <==> artifact.indexWritable)
              && (index.Some? ==> IsIndexOf(index.value, TocOfArtifact(artifact), dir))
  {
    if artifact.archive.None? {
      return false, None, [];
    }
    var toc := UntarWithToc(artifact.archive.value, artifact.writable);
    if toc.None? {
      return false, None, [];
    }
    var lines;
    lines, labels := AddLabelsToToc(toc.value);
    var rows := AddParentDirToToc(lines, dir);
    LinesHaveParents(lines, toc.value, dir);
    return true, if artifact.indexWritable then rows else None, labels;
  }

  /** A whole archive that can be fetched and written, and no name in it starts with a dot. */
  ghost predicate IsOrdinary(artifact: Artifact) {
    artifact.archive.Some? && artifact.archive.value.end.EndOfArchive?
    && forall e :: e in artifact.archive.value.entries ==>
         artifact.writable(e) && !(e.name != "" && e.name[0] == '.')
  }

  ghost predicate HasHidden(artifact: Artifact) {
    artifact.archive.Some? && exists e :: e in artifact.archive.value.entries && e.name != "" && e.name[0] == '.'
  }

  /** What SaveTrainTestData leaves behind: the label list of the training archive and the two index
      files that could be written. */
  datatype Saved =
    | Saved(labels: seq<string>, trainingIndex: Option<seq<string>>, testIndex: Option<seq<string>>)
    | SaveFailed

  /** Only the training archive's label list is kept; the test archive is numbered on its own. The
      method succeeds exactly if the blob store opens and both artifacts are fetched and extracted,
      whether or not the index files that Caffe needs could be written. */
  method SaveTrainTestData(layer: LayerType, blobStore: bool, training: Artifact, testing: Artifact) returns (r: Saved)
    ensures r.Saved? <==> blobStore && Ready(training) && Ready(testing)
    ensures blobStore && IsOrdinary(training) && IsOrdinary(testing) ==> r.Saved?
    ensures HasHidden(training) || HasHidden(testing) ==> !r.Saved?
    ensures r.Saved? && layer.ImageData? ==>
              && r.labels == Distinct(Dirs(TocOfArtifact(training)))
              && (r.trainingIndex.Some? <==> training.indexWritable) && (r.testIndex.Some? <==> testing.indexWritable)
              && (r.trainingIndex.Some? ==> IsIndexOf(r.trainingIndex.value, TocOfArtifact(training), "training-data"))
              && (r.testIndex.Some? ==> IsIndexOf(r.testIndex.value, TocOfArtifact(testing), "test-data"))
    ensures r.Saved? && layer.Data? ==> r == Saved([], None, None)
  {
    if !blobStore {
      return SaveFailed;
    }
    if layer.Data? {
      var ok := ExtractArtifact(training);
      if ok {
        ok := ExtractArtifact(testing);
      }
      return if ok then Saved([], None, None) else SaveFailed;
    }
    var ok, trainingIndex, labels := IndexArtifact(training, TRAINING_DIR);
    if !ok {
      return SaveFailed;
    }
    var testIndex, testLabels;
    ok, testIndex, testLabels := IndexArtifact(testing, TESTING_DIR);
    return if ok then Saved(labels, trainingIndex, testIndex) else SaveFailed;
  }

  /** Fetches and extracts one artifact without indexing it. */
  method ExtractArtifact(artifact: Artifact) returns (ok: bool)
    ensures ok <==> Ready(artifact)
  {
    if artifact.archive.None? {
      return false;
    }
    var toc := UntarWithToc(artifact.archive.value, artifact.writable);
    return toc.Some?;
  }

  predicate IsFile(e: Entry) {
    !e.isDir
  }

  lemma DirsOfAppend(toc: seq<string>, name: string)
    ensures Dirs(toc + [name]) == Dirs(toc) + [Dir(name)]
  {
  }

  /** A directory is a label of an archive if and only if some file of it is there. */
  lemma {:induction false} LabelsAreDirsOfFiles(entries: seq<Entry>, d: string)
    ensures d in Dirs(TocOf(entries)) <==> Has(OfKey(DirOf, entries, d), IsFile)
  {
    if entries != [] {
      var prev, e := entries[..|entries| - 1], entries[|entries| - 1];
      LabelsAreDirsOfFiles(prev, d);
      assert entries == prev + [e];
      OfKeyOfAppend(DirOf, prev, e, d);
      HasOfAppend(OfKey(DirOf, prev, d), e, IsFile);
      if e.isDir {
        assert TocOf(entries) == TocOf(prev);
      } else {
        DirsOfAppend(TocOf(prev), e.name);
      }
    }
  }

  /** Directory entries take slots of their directory: whatever stands among its files, the training
      labels have d if and only if some file of d stands at a rank that goes to training. */
  lemma LabelIsKeptIff(entries: seq<Entry>, d: string, a: int, b: int)
    ensures d in TrainingLabels(entries, a, b) <==> HasAt(OfKey(DirOf, entries, d), IsFile, a, b, true)
  {
    var train := Part(DirOf, entries, a, b, true);
    PartGetsAFileIff(DirOf, IsFile, entries, d, a, b, true);
    LabelsAreDirsOfFiles(train, d);
    LabelsAreDirs(TocOf(train), d);
  }

  /** A directory entry d/ takes a slot of directory d: with n files behind it, the training labels
      have d if and only if (n - 1)*a >= b. */
  lemma HeaderCostsALabelIff(entries: seq<Entry>, d: string, body: string, files: seq<Entry>, a: int, b: int)
    requires a >= 1 && b >= 0 && OfKey(DirOf, entries, d) == [Entry(d + "/", true, body)] + files
    requires forall f :: f in files ==> IsFile(f)
    ensures d in TrainingLabels(entries, a, b) <==> (|files| - 1) * a >= b
  {
    var train := Part(DirOf, entries, a, b, true);
    HeaderCostsATrainingFileIff(DirOf, IsFile, entries, Entry(d + "/", true, body), files, d, a, b);
    LabelsAreDirsOfFiles(train, d);
    LabelsAreDirs(TocOf(train), d);
  }

  lemma LabelsAreDirs(toc: seq<string>, d: string)
    ensures d in Distinct(Dirs(toc)) <==> d in Dirs(toc)
  {
    DistinctIsASet(Dirs(toc));
  }

  /** Such archives exist for every canonical directory name: a header and any files f of it. */
  lemma {:induction false} HeaderAndFiles(d: string, body: string, files: seq<Entry>)
    requires Canonical(d)
    requires forall e :: e in files ==> exists f: string :: '/' !in f && e.name == d + "/" + f
    ensures OfKey(DirOf, [Entry(d + "/", true, body)] + files, d) == [Entry(d + "/", true, body)] + files
    decreases |files|
  {
    var h := Entry(d + "/", true, body);
    DirOfMember(d, "");
    if files == [] {
      assert [h] + files == [] + [h];
      OfKeyOfAppend(DirOf, [], h, d);
    } else {
      var prev, e := files[..|files| - 1], files[|files| - 1];
      assert files == prev + [e] && e in files && forall x :: x in prev ==> x in files;
      var f: string :| '/' !in f && e.name == d + "/" + f;
      DirOfMember(d, f);
      HeaderAndFiles(d, body, prev);
      assert [h] + files == ([h] + prev) + [e];
      OfKeyOfAppend(DirOf, [h] + prev, e, d);
    }
  }

  predicate FilesOnly(entries: seq<Entry>) {
    forall e :: e in entries ==> !e.isDir
  }

  lemma {:induction false} TocOfFiles(entries: seq<Entry>)
    requires FilesOnly(entries)
    ensures |TocOf(entries)| == |entries| && forall i :: 0 <= i < |entries| ==> TocOf(entries)[i] == entries[i].name
  {
    if entries != [] {
      var n := |entries| - 1;
      assert forall e :: e in entries[..n] ==> e in entries;
      TocOfFiles(entries[..n]);
      assert entries[n] in entries;
    }
  }

  lemma DirsOfToc(entries: seq<Entry>)
    requires FilesOnly(entries)
    ensures Dirs(TocOf(entries)) == Keys(DirOf, entries)
  {
    TocOfFiles(entries);
    forall i | 0 <= i < |entries| ensures Dirs(TocOf(entries))[i] == Keys(DirOf, entries)[i] {
      assert TocOf(entries)[i] == entries[i].name;
    }
  }

  lemma {:induction false} PartLength(entries: seq<Entry>, a: int, b: int, side: bool)
    ensures |Part(DirOf, entries, a, b, side)| <= |entries|
  {
    if entries != [] {
      var prev, e := entries[..|entries| - 1], entries[|entries| - 1];
      PartLength(prev, a, b, side);
      assert entries == prev + [e];
      PartOfAppend(DirOf, prev, e, a, b, side);
    }
  }

  lemma {:induction false} PartsKeepFiles(entries: seq<Entry>, a: int, b: int, side: bool)
    requires FilesOnly(entries)
    ensures FilesOnly(Part(DirOf, entries, a, b, side))
  {
    if entries != [] {
      var prev, e := entries[..|entries| - 1], entries[|entries| - 1];
      assert entries == prev + [e] && e in entries && forall x :: x in prev ==> x in entries;
      PartsKeepFiles(prev, a, b, side);
      PartOfAppend(DirOf, prev, e, a, b, side);
    }
  }

  function TrainingLabels(entries: seq<Entry>, a: int, b: int): seq<string> {
    Distinct(Dirs(TocOf(Part(DirOf, entries, a, b, true))))
  }

  function TestToc(entries: seq<Entry>, a: int, b: int): seq<string> {
    TocOf(Part(DirOf, entries, a, b, false))
  }

  /** From the archive to the two label lists: the training list is all directories in
      first-appearance order, and the test list equals it if and only if every directory has at
      least two files. */
  lemma SplitLabelListsAgreeIff(entries: seq<Entry>, a: int, b: int)
    requires FilesOnly(entries) && Grouped(Dirs(TocOf(entries))) && b >= 1
    ensures TrainingLabels(entries, a, b) == Distinct(Dirs(TocOf(entries)))
    ensures TrainingLabels(entries, a, b) == Distinct(Dirs(TestToc(entries, a, b)))
       <==> forall d :: d in Distinct(Dirs(TocOf(entries))) ==> CountKey(DirOf, entries, d) >= 2
  {
    PartsKeepFiles(entries, a, b, true);
    PartsKeepFiles(entries, a, b, false);
    DirsOfToc(entries);
    DirsOfToc(Part(DirOf, entries, a, b, true));
    DirsOfToc(Part(DirOf, entries, a, b, false));
    TrainingHasAllLabels(DirOf, entries, a, b);
    LabelListsAgreeIff(DirOf, entries, a, b);
  }

  /** Reads label numbers of a table of contents with a label list, as a classify job would. */
  ghost predicate AllRead(toc: seq<string>, labels: seq<string>) {
    forall i {:trigger toc[i]} :: 0 <= i < |toc| ==> Read(Decimal(Number(Dirs(toc), i)), labels) == Label(Dir(toc[i]))
  }

  lemma AllReadIffWellLabelled(toc: seq<string>, labels: seq<string>)
    requires |toc| <= TWO_TO_THE_63
    ensures AllRead(toc, labels) <==> WellLabelled(Dirs(toc), labels)
  {
    forall i {:trigger toc[i]} | 0 <= i < |toc|
      ensures Read(Decimal(Number(Dirs(toc), i)), labels) == Label(Dir(toc[i])) <==> Decodes(Dirs(toc), labels, i)
    {
      ReadOfNumber(Dirs(toc), labels, i);
    }
    if AllRead(toc, labels) {
      forall i | 0 <= i < |toc| ensures Decodes(Dirs(toc), labels, i) {
        assert Read(Decimal(Number(Dirs(toc), i)), labels) == Label(Dir(toc[i]));
      }
    }
  }

  /** The numbers Caffe is tested with, translated by the label list that training kept, name the
      right directories if and only if no directory with a single file comes before one with more. */
  lemma TestNumbersReadWithTrainingLabelsIff(entries: seq<Entry>, a: int, b: int)
    requires FilesOnly(entries) && Grouped(Dirs(TocOf(entries))) && b >= 1 && |entries| <= TWO_TO_THE_63
    ensures AllRead(TestToc(entries, a, b), TrainingLabels(entries, a, b))
       <==> SinglesComeLast(DirOf, entries, Distinct(Dirs(TocOf(entries))))
  {
    var test := Part(DirOf, entries, a, b, false);
    PartsKeepFiles(entries, a, b, true);
    PartsKeepFiles(entries, a, b, false);
    DirsOfToc(entries);
    DirsOfToc(Part(DirOf, entries, a, b, true));
    DirsOfToc(test);
    TocOfFiles(test);
    PartLength(entries, a, b, false);
    TestNumbersMatchTrainingLabelsIff(DirOf, entries, a, b);
    AllReadIffWellLabelled(TestToc(entries, a, b), TrainingLabels(entries, a, b));
  }

  /** The training numbers always read back: every training row's number names its directory. */
  lemma TrainingNumbersReadBack(entries: seq<Entry>, a: int, b: int)
    requires FilesOnly(entries) && Grouped(Dirs(TocOf(entries))) && b >= 1 && |entries| <= TWO_TO_THE_63
    ensures AllRead(TocOf(Part(DirOf, entries, a, b, true)), TrainingLabels(entries, a, b))
  {
    var train := Part(DirOf, entries, a, b, true);
    PartsKeepFiles(entries, a, b, true);
    DirsOfToc(entries);
    DirsOfToc(train);
    TocOfFiles(train);
    PartLength(entries, a, b, true);
    PartsOfGroupedAreGrouped(DirOf, entries, a, b, true);
    LabellingIsRightIffGrouped(Dirs(TocOf(train)));
    AllReadIffWellLabelled(TocOf(train), TrainingLabels(entries, a, b));
  }

  lemma {:induction false} PartsHaveTheEntries(entries: seq<Entry>, a: int, b: int)
    ensures forall e :: e in entries
              <==> e in Part(DirOf, entries, a, b, true) || e in Part(DirOf, entries, a, b, false)
  {
    if entries != [] {
      var prev, e := entries[..|entries| - 1], entries[|entries| - 1];
      PartsHaveTheEntries(prev, a, b);
      assert entries == prev + [e];
      PartOfAppend(DirOf, prev, e, a, b, true);
      PartOfAppend(DirOf, prev, e, a, b, false);
    }
  }

  /** A whole archive, read without errors. */
  function Whole(entries: seq<Entry>): Source {
    Source(entries, EndOfArchive)
  }

  lemma PartsAreExtractable(entries: seq<Entry>, writable: Entry -> bool, a: int, b: int)
    ensures Extractable(Whole(entries), writable)
       <==> Extractable(Whole(Part(DirOf, entries, a, b, true)), writable)
             && Extractable(Whole(Part(DirOf, entries, a, b, false)), writable)
  {
    PartsHaveTheEntries(entries, a, b);
    var train, test := Part(DirOf, entries, a, b, true), Part(DirOf, entries, a, b, false);
    assert forall i :: 0 <= i < |train| ==> train[i] in train;
    assert forall i :: 0 <= i < |test| ==> test[i] in test;
    assert forall i :: 0 <= i < |entries| ==> entries[i] in entries;
  }

  /** The conditions of the whole way are met by every archive without hidden names that both streams
      have room for, and by no archive with a hidden name. */
  lemma OrdinaryArchivesGoThrough(source: Source, writable: Entry -> bool, trainRoom: nat, testRoom: nat, a: int,
        b: int)
    ensures source.end.EndOfArchive? && TotalCost(source.entries) <= trainRoom && TotalCost(source.entries) <= testRoom
            && (forall e :: e in source.entries ==> writable(e) && !(e.name != "" && e.name[0] == '.'))
            ==> Succeeds(source, trainRoom, true, testRoom, true, a, b) && Extractable(source, writable)
    ensures (exists e :: e in source.entries && e.name != "" && e.name[0] == '.') ==> !Extractable(source, writable)
  {
    PartsShareTheCost(source.entries, a, b);
  }

  /** The whole way of an image archive: split by ratio into two streams with room for so much, stored,
      fetched again if `kept`, extracted, numbered and indexed. */
  method SplitAndSave(source: Source, a: int, b: int, trainRoom: nat, testRoom: nat, kept: bool,
        writable: Entry -> bool, indexWritable: bool)
    returns (r: Saved)
    ensures r.Saved? <==>
              Succeeds(source, trainRoom, true, testRoom, true, a, b) && kept && Extractable(source, writable)
    ensures r.Saved? ==> r.labels == TrainingLabels(source.entries, a, b)
    ensures r.Saved? && indexWritable ==>
              && r.trainingIndex.Some? && r.testIndex.Some?
              && IsIndexOf(r.trainingIndex.value, TocOf(Part(DirOf, source.entries, a, b, true)), "training-data")
              && IsIndexOf(r.testIndex.value, TestToc(source.entries, a, b), "test-data")
  {
    var train := new TarWriter(trainRoom, true);
    var test := new TarWriter(testRoom, true);
    var ok := Transform(source, train, test, a, b);
    if !ok || !kept {
      return SaveFailed;
    }
    PartsAreExtractable(source.entries, writable, a, b);
    assert source == Whole(source.entries);
    r := SaveTrainTestData(ImageData, true, Artifact(Some(Whole(train.entries)), writable, indexWritable),
                           Artifact(Some(Whole(test.entries)), writable, indexWritable));
  }
}
