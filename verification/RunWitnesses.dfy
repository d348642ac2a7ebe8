/** Whole runs on a store of their own, from the insertion of a document to its last version. */
module RunWitnesses {
  import opened Documents
  import opened Protocol
  import opened RetryLoop
  import opened Updates
  import opened Text
  import opened Classification
  import opened Pipeline
  import TrainingRuns
  import ClassifyRuns
  import DatasetRuns
  import DatafileRuns

  /** A store that answers every request, whatever others edit in between. */
  lemma AnsweringStoresAreFaultless(foreign: seq<seq<Body>>)
    ensures Faultless(seq(|foreign|, i requires 0 <= i < |foreign| => Round(foreign[i], Answered)))
  {
  }

  method TrainAlone(b: Body, labels: seq<string>, modelUrl: string, out: string, err: string) returns (last: Body)
    requires b.state == Pending
    ensures last == b.(state := FinishedSuccessfully, log := "", labels := Some(labels), modelUrl := modelUrl)
  {
    var db := new Database(b, []);
    var j := new Thing(0, b);
    ghost var run := TrainingRuns.RunTraining(db, j, labels, modelUrl, out, err, None, None);
    last := db.Last();
  }

  method ClassifyAlone(b: Body, image: string) returns (last: Body)
    requires b.state == Pending
    ensures last == b.(state := FinishedSuccessfully, results := Some(map[image := "A"]))
  {
    var db := new Database(b, []);
    var c := new Thing(0, b);
    ghost var run;
    var ending;
    ending, run := ClassifyRuns.RunClassify(db, c, [None, None], Data, map[image := "A"], []);
    assert !run.claim.Won? ==> ending.NotClaimed?;
    last := db.Last();
  }

  /** A numeric answer: 0 is the first label, 1 is refused if there is no second one, and -1 panics. */
  method ClassifyNumberAlone(b: Body, image: string, answer: nat, negative: bool) returns (ending: ClassifyRuns.Ending)
    requires b.state == Pending && answer < 0x8000_0000_0000_0000
    ensures ending == if negative && answer > 0 then ClassifyRuns.Panicked
                      else if answer == 0 then ClassifyRuns.FinishedWith(map[image := "A"])
                      else ClassifyRuns.FailedWith(ClassifyRuns.TRANSLATION_ERROR)
  {
    var number := if negative && answer > 0 then "-" + Decimal(answer) else Decimal(answer);
    ReadOfDecimal(answer, ["A"]);
    var db := new Database(b, []);
    var c := new Thing(0, b);
    ghost var run;
    var raw := map[image := number];
    assert image in raw && forall k :: k in raw ==> raw[k] == number;
    ending, run := ClassifyRuns.RunClassify(db, c, [], ImageData, raw, ["A"]);
    assert answer == 0 ==> ClassifyRuns.Answers(ImageData, raw, ["A"]) == map[image := "A"];
  }

  method SplitAlone(b: Body, error: Option<string>) returns (last: Body)
    requires b.state == Pending
    ensures last == if error.Some? then b.(state := Failed, log := error.value)
                    else b.(state := FinishedSuccessfully)
  {
    var db := new Database(b, []);
    var d := new Thing(0, b);
    ghost var run := DatasetRuns.RunSplit(db, d, [], None, None, error);
    ghost var none: seq<Option<string>> := [None, None];
    assert none[1..] == [None] && none + [error] == [None, None, error] && [] + [error] == [error];
    FirstOfConcat(none, error);
    last := db.Last();
  }

  method DownloadAlone(b: Body, training: Option<string>) returns (last: Body)
    requires b.state == Pending
    ensures last == b.(state := FinishedSuccessfully, log := if training.Some? then training.value else b.log)
  {
    var db := new Database(b, []);
    var d := new Thing(0, b);
    ghost var run := DatasetRuns.RunDownload(db, d, None, training, None);
    last := db.Last();
  }

  method CopyAlone(b: Body, url: string, error: Option<string>) returns (last: Body)
    requires b.state == Pending
    ensures last == b.(state := if error.Some? then Failed else FinishedSuccessfully)
  {
    var db := new Database(b, []);
    var d := new Thing(0, b);
    ghost var claim, finished, end := DatafileRuns.RunDatafile(db, d, url, None, error);
    last := db.Last();
  }
}
