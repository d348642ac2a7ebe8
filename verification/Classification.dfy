/** Translating the classifier's numeric answers back into directory names. */
module Classification {
  import opened Documents
  import opened Text
  import opened Labels

  /** What becomes of one numeric label; `Crash` is Go's panic on a negative index, which the bounds
      check of `translateLabels` lets through. */
  datatype Reading = Label(name: string) | Refusal | Crash

  function Read(numericLabel: string, labels: seq<string>): Reading {
    match ParseInt64(numericLabel)
    case None => Refusal
    case Some(n) => if n > |labels| - 1 then Refusal else if n < 0 then Crash else Label(labels[n])
  }

  datatype Translation = Translated(results: map<string, string>) | Refused | Crashed

  /** Goes through the results in any order. The translation succeeds exactly when every value can
      be read, and then it has exactly the keys of the input. */
  method TranslateLabels(results: map<string, string>, labels: seq<string>) returns (t: Translation)
    ensures t.Translated? <==> forall k :: k in results ==> Read(results[k], labels).Label?
    ensures t.Translated? ==> t.results.Keys == results.Keys && forall k :: k in results ==>
              Read(results[k], labels) == Label(t.results[k])
    ensures t.Refused? ==> exists k :: k in results && Read(results[k], labels).Refusal?
    ensures t.Crashed? ==> exists k :: k in results && Read(results[k], labels).Crash?
  {
    var transformed: map<string, string> := map[];
    var remaining := results.Keys;
    while remaining != {}
      invariant remaining <= results.Keys && transformed.Keys == results.Keys - remaining
      invariant forall k :: k in transformed ==> Read(results[k], labels) == Label(transformed[k])
    {
      var imageSha1 :| imageSha1 in remaining;
      var numericLabel := ParseInt64(results[imageSha1]);
      if numericLabel.None? {
        return Refused;
      }
      if numericLabel.value > |labels| - 1 {
        return Refused;
      }
      if numericLabel.value < 0 {
        return Crashed;
      }
      transformed := transformed[imageSha1 := labels[numericLabel.value]];
      remaining := remaining - {imageSha1};
    }
    return Translated(transformed);
  }

  /** Every printed number: one that indexes the labels is read as that label, a larger one is refused,
      whatever its size; behind a minus sign it brings the process down, if it is not 0 and an int. */
  lemma ReadOfDecimal(n: nat, labels: seq<string>)
    requires |labels| <= TWO_TO_THE_63
    ensures Read(Decimal(n), labels) == if n < |labels| then Label(labels[n]) else Refusal
    ensures n > 0 ==> Read("-" + Decimal(n), labels) == if n <= 0x8000_0000_0000_0000 then Crash else Refusal
  {
    ParseOfSigned(n);
  }

  /** Anything that is not a number is refused. */
  lemma ReadOfJunk(s: string, i: nat, labels: seq<string>)
    requires i < |s| && !('0' <= s[i] <= '9') && (i == 0 ==> s[0] != '+' && s[0] != '-')
    ensures Read(s, labels) == Refusal && Read("", labels) == Refusal
  {
    ParseOfJunk(s, i);
  }

  lemma {:induction false} NumberBound(dirs: seq<string>, i: nat)
    requires i < |dirs|
    ensures Number(dirs, i) <= i
  {
    if i > 0 { NumberBound(dirs, i - 1); }
  }

  lemma ReadOfNumber(dirs: seq<string>, labels: seq<string>, i: nat)
    requires i < |dirs| <= TWO_TO_THE_63
    ensures Read(Decimal(Number(dirs, i)), labels) == Label(dirs[i]) <==> Decodes(dirs, labels, i)
  {
    NumberBound(dirs, i);
    ParseOfDecimal(Number(dirs, i));
  }

  /** Classification inverts labelling exactly on grouped tables of contents: printing any entry's
      number and reading it with the label list gives the entry's directory. */
  lemma ReadingInvertsLabellingIffGrouped(dirs: seq<string>)
    requires |dirs| <= TWO_TO_THE_63
    ensures (forall i {:trigger dirs[i]} :: 0 <= i < |dirs| ==>
              Read(Decimal(Number(dirs, i)), Distinct(dirs)) == Label(dirs[i])) <==> Grouped(dirs)
  {
    forall i {:trigger dirs[i]} | 0 <= i < |dirs|
      ensures Read(Decimal(Number(dirs, i)), Distinct(dirs)) == Label(dirs[i]) <==> Decodes(dirs, Distinct(dirs), i)
    {
      ReadOfNumber(dirs, Distinct(dirs), i);
    }
    LabellingIsRightIffGrouped(dirs);
    if forall i {:trigger dirs[i]} :: 0 <= i < |dirs| ==>
          Read(Decimal(Number(dirs, i)), Distinct(dirs)) == Label(dirs[i]) {
      forall i | 0 <= i < |dirs| ensures Decodes(dirs, Distinct(dirs), i) {
        assert Read(Decimal(Number(dirs, i)), Distinct(dirs)) == Label(dirs[i]);
      }
    }
  }

  lemma GroupedReads(dirs: seq<string>, i: nat)
    requires i < |dirs| <= TWO_TO_THE_63 && Grouped(dirs)
    ensures Read(Decimal(Number(dirs, i)), Distinct(dirs)) == Label(dirs[i])
  {
    GroupedDecodes(dirs, i);
    ReadOfNumber(dirs, Distinct(dirs), i);
  }

  /** A classifier that answers every image with the number of some entry of a grouped table of
      contents: the job's results then name, for exactly those images, the entries' directories. */
  method ClassifyEntries(toc: seq<string>, images: map<string, nat>, answers: map<string, string>)
    returns (t: Translation)
    requires |toc| <= TWO_TO_THE_63 && Grouped(Dirs(toc)) && answers.Keys == images.Keys
    requires forall k :: k in images ==> images[k] < |toc| && answers[k] == Decimal(Number(Dirs(toc), images[k]))
    ensures t.Translated? && t.results.Keys == images.Keys
    ensures forall k :: k in images ==> t.results[k] == Dir(toc[images[k]])
  {
    var lines, labels := AddLabelsToToc(toc);
    forall k | k in answers ensures Read(answers[k], labels) == Label(Dirs(toc)[images[k]]) {
      GroupedReads(Dirs(toc), images[k]);
    }
    t := TranslateLabels(answers, labels);
  }
}
