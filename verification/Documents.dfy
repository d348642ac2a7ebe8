/** The stored documents and the updaters that the jobs hand to `casUpdate`.

    One record carries the fields of every processable document type (training job, classify
    job, dataset, datafile); a document of one type simply never uses the others' fields.
    Optional values keep Go's nil slice or map apart from an empty one, as the jobs'
    `reflect.DeepEqual` tests do. */
module Documents {
  datatype Option<+T> = None | Some(value: T)

  datatype ProcessingState = Pending | Processing | FinishedSuccessfully | Failed

  datatype Body = Body(
    state: ProcessingState,
    log: string,
    labels: Option<seq<string>>,
    modelUrl: string,
    results: Option<map<string, string>>,
    trainingUrl: string,
    testUrl: string,
    stdOutUrl: string,
    stdErrUrl: string,
    sourceUrl: string)

  /** The closures the jobs pass to `casUpdate`, as data: each constructor is one updater
      together with its done test. */
  datatype Update =
    | SetState(state: ProcessingState)
    | SetLog(log: string)
    | SetLabels(labels: Option<seq<string>>)
    | SetModelUrl(url: string)
    | SetResults(results: Option<map<string, string>>)
    | SetArtifactUrls(training: string, testing: string)

  function Apply(u: Update, b: Body): Body {
    match u
    case SetState(st) => b.(state := st)
    case SetLog(text) => b.(log := text)
    case SetLabels(ls) => b.(labels := ls)
    case SetModelUrl(url) => b.(modelUrl := url)
    case SetResults(rs) => b.(results := rs)
    case SetArtifactUrls(tr, te) => b.(trainingUrl := tr, testUrl := te)
  }

  predicate Done(u: Update, b: Body) {
    match u
    case SetState(st) => b.state == st
    case SetLog(text) => b.log == text
    case SetLabels(ls) => b.labels == ls
    case SetModelUrl(url) => b.modelUrl == url
    case SetResults(rs) => b.results == rs
    case SetArtifactUrls(tr, te) => b.trainingUrl == tr && b.testUrl == te
  }

  /** The groups of fields that are written together. `LocalFields` are the ones that some job
      assigns on its own copy but no updater ever writes. */
  datatype Field = StateField | LogField | LabelsField | ModelField | ResultsField | ArtifactField | LocalFields

  function FieldOf(u: Update): Field {
    match u
    case SetState(_) => StateField
    case SetLog(_) => LogField
    case SetLabels(_) => LabelsField
    case SetModelUrl(_) => ModelField
    case SetResults(_) => ResultsField
    case SetArtifactUrls(_, _) => ArtifactField
  }

  predicate AgreeOn(f: Field, a: Body, b: Body) {
    match f
    case StateField => a.state == b.state
    case LogField => a.log == b.log
    case LabelsField => a.labels == b.labels
    case ModelField => a.modelUrl == b.modelUrl
    case ResultsField => a.results == b.results
    case ArtifactField => a.trainingUrl == b.trainingUrl && a.testUrl == b.testUrl
    case LocalFields => a.stdOutUrl == b.stdOutUrl && a.stdErrUrl == b.stdErrUrl && a.sourceUrl == b.sourceUrl
  }

  /** A done test holds exactly where its updater would change nothing. */
  lemma DoneIffNothingToDo(u: Update, b: Body)
    ensures Done(u, b) <==> Apply(u, b) == b
    ensures Apply(u, Apply(u, b)) == Apply(u, b)
  {
  }

  /** An updater writes its own group of fields and no other, and writes it whatever was there. */
  lemma UpdatesOneField(u: Update, b: Body, c: Body, f: Field)
    ensures f != FieldOf(u) ==> AgreeOn(f, Apply(u, b), b)
    ensures AgreeOn(FieldOf(u), Apply(u, b), Apply(u, c))
  {
  }

  /** The groups of fields are all there is of a document. */
  lemma AgreeEverywhere(a: Body, b: Body)
    ensures (forall f :: AgreeOn(f, a, b)) <==> a == b
  {
    if forall f :: AgreeOn(f, a, b) {
      assert AgreeOn(StateField, a, b) && AgreeOn(LogField, a, b) && AgreeOn(LabelsField, a, b);
      assert AgreeOn(ModelField, a, b) && AgreeOn(ResultsField, a, b) && AgreeOn(ArtifactField, a, b);
      assert AgreeOn(LocalFields, a, b);
    }
  }
}
