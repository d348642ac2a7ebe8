/** Numeric labels for the entries of a table of contents, and the list that names them. */
module Labels {
  import opened Text

  function Dirs(toc: seq<string>): (dirs: seq<string>)
    ensures |dirs| == |toc| && forall i :: 0 <= i < |toc| ==> dirs[i] == Dir(toc[i])
  {
    seq(|toc|, i requires 0 <= i < |toc| => Dir(toc[i]))
  }

  /** The label number of entry i: the changes of directory up to it. */
  function Number(dirs: seq<string>, i: nat): nat
    requires i < |dirs|
  {
    if i == 0 then 0 else Number(dirs, i - 1) + if dirs[i] == dirs[i - 1] then 0 else 1
  }

  /** The distinct directories in the order in which they first appear. */
  function Distinct(dirs: seq<string>): seq<string> {
    if dirs == [] then []
    else
      var found := Distinct(dirs[..|dirs| - 1]);
      if dirs[|dirs| - 1] in found then found else found + [dirs[|dirs| - 1]]
  }

  /** No directory recurs after a different one. */
  ghost predicate Grouped(dirs: seq<string>) {
    forall i, j, k :: 0 <= i < j < k < |dirs| && dirs[i] == dirs[k] ==> dirs[j] == dirs[i]
  }

  /** Entry i's number indexes its own directory in the label list. */
  predicate Decodes(dirs: seq<string>, labels: seq<string>, i: nat)
    requires i < |dirs|
  {
    Number(dirs, i) < |labels| && labels[Number(dirs, i)] == dirs[i]
  }

  ghost predicate WellLabelled(dirs: seq<string>, labels: seq<string>) {
    forall i :: 0 <= i < |dirs| ==> Decodes(dirs, labels, i)
  }

  /** An entry and its label number as one line. */
  function Line(entry: string, number: nat): string {
    entry + " " + Decimal(number)
  }

  /** The loop's two variables after n entries. */
  predicate Reached(dirs: seq<string>, n: nat, currentDirectory: string, labelIndex: nat)
    requires n <= |dirs|
  {
    if n == 0 then currentDirectory == "" && labelIndex == 0
    else currentDirectory == dirs[n - 1] && currentDirectory != "" && labelIndex == Number(dirs, n - 1)
  }

  lemma ReachNext(dirs: seq<string>, n: nat, currentDirectory: string, labelIndex: nat)
    requires n < |dirs| && Reached(dirs, n, currentDirectory, labelIndex) && dirs[n] != ""
    ensures Reached(dirs, n + 1, dirs[n],
                    if currentDirectory == "" || dirs[n] == currentDirectory then labelIndex else labelIndex + 1)
  {
  }

  /** The lines printed so far carry each entry's own number. */
  ghost predicate Printed(toc: seq<string>, dirs: seq<string>, lines: seq<string>) {
    |lines| <= |toc| == |dirs| && forall i {:trigger lines[i]} :: 0 <= i < |lines| ==>
          lines[i] == Line(toc[i], Number(dirs, i))
  }

  lemma PrintNext(toc: seq<string>, dirs: seq<string>, lines: seq<string>, number: nat)
    requires Printed(toc, dirs, lines) && |lines| < |toc| && number == Number(dirs, |lines|)
    ensures Printed(toc, dirs, lines + [Line(toc[|lines|], number)])
  {
  }

  /** What the loop has built after n entries. */
  ghost predicate LabelledUpTo(toc: seq<string>, n: nat, currentDirectory: string, labelIndex: nat,
        lines: seq<string>, labels: seq<string>) {
    var dirs := Dirs(toc);
    && |lines| == n <= |toc|
    && Reached(dirs, n, currentDirectory, labelIndex)
    && labels == Distinct(dirs[..n])
    && Printed(toc, dirs, lines)
  }

  lemma LabelNext(toc: seq<string>, n: nat, currentDirectory: string, labelIndex: nat, lines: seq<string>,
        labels: seq<string>, dir: string, number: nat)
    requires n < |toc| && LabelledUpTo(toc, n, currentDirectory, labelIndex, lines, labels)
    requires dir == Dir(toc[n])
    requires number == if currentDirectory == "" || dir == currentDirectory then labelIndex else labelIndex + 1
    ensures LabelledUpTo(toc, n + 1, dir, number, lines + [Line(toc[n], number)],
              if dir in labels then labels else labels + [dir])
  {
    var dirs := Dirs(toc);
    ReachNext(dirs, n, currentDirectory, labelIndex);
    DistinctStep(dirs, n);
    PrintNext(toc, dirs, lines, number);
  }

  /** Runs through the table of contents once, numbering a new label at each change of directory. */
  method AddLabelsToToc(tableOfContents: seq<string>) returns (tocWithLabels: seq<string>, labels: seq<string>)
    ensures labels == Distinct(Dirs(tableOfContents))
    ensures |tocWithLabels| == |tableOfContents|
    ensures forall i {:trigger tocWithLabels[i]} :: 0 <= i < |tableOfContents| ==>
              tocWithLabels[i] == Line(tableOfContents[i], Number(Dirs(tableOfContents), i))
  {
    var currentDirectory, labelIndex := "", 0;
    tocWithLabels, labels := [], [];
    for n := 0 to |tableOfContents|
      invariant LabelledUpTo(tableOfContents, n, currentDirectory, labelIndex, tocWithLabels, labels)
    {
      var dir := Dir(tableOfContents[n]);
      LabelNext(tableOfContents, n, currentDirectory, labelIndex, tocWithLabels, labels, dir,
                if currentDirectory == "" || dir == currentDirectory then labelIndex else labelIndex + 1);
      if currentDirectory == "" {
        currentDirectory := dir;
      } else {
        if dir != currentDirectory {
          labelIndex := labelIndex + 1;
        }
        currentDirectory := dir;
      }
      if dir !in labels {
        labels := labels + [dir];
      }
      tocWithLabels := tocWithLabels + [Line(tableOfContents[n], labelIndex)];
    }
    assert Dirs(tableOfContents)[..|tableOfContents|] == Dirs(tableOfContents);
  }

  lemma DistinctStep(dirs: seq<string>, n: nat)
    requires n < |dirs|
    ensures dirs[n] in Distinct(dirs[..n]) ==> Distinct(dirs[..n + 1]) == Distinct(dirs[..n])
    ensures dirs[n] !in Distinct(dirs[..n]) ==> Distinct(dirs[..n + 1]) == Distinct(dirs[..n]) + [dirs[n]]
  {
    assert dirs[..n + 1] == dirs[..n] + [dirs[n]];
    DistinctOfAppend(dirs[..n], dirs[n]);
  }

  lemma DistinctOfAppend(dirs: seq<string>, d: string)
    ensures d in Distinct(dirs) ==> Distinct(dirs + [d]) == Distinct(dirs)
    ensures d !in Distinct(dirs) ==> Distinct(dirs + [d]) == Distinct(dirs) + [d]
  {
    assert (dirs + [d])[..|dirs|] == dirs;
  }

  /** The label list has no repetition and exactly the directories of the entries. */
  lemma {:induction false} DistinctIsASet(dirs: seq<string>)
    ensures forall i, j :: 0 <= i < j < |Distinct(dirs)| ==> Distinct(dirs)[i] != Distinct(dirs)[j]
    ensures forall d :: d in Distinct(dirs) <==> d in dirs
  {
    if dirs != [] {
      var prev, d := dirs[..|dirs| - 1], dirs[|dirs| - 1];
      DistinctIsASet(prev);
      assert dirs == prev + [d];
      DistinctOfAppend(prev, d);
    }
  }

  /** First-appearance order: the list of a prefix is a prefix of the list. */
  lemma {:induction false} DistinctOfPrefix(dirs: seq<string>, n: nat)
    requires n <= |dirs|
    ensures Distinct(dirs[..n]) <= Distinct(dirs)
    decreases |dirs| - n
  {
    if n == |dirs| {
      assert dirs[..n] == dirs;
    } else {
      DistinctOfPrefix(dirs, n + 1);
      assert dirs[..n + 1] == dirs[..n] + [dirs[n]];
      DistinctOfAppend(dirs[..n], dirs[n]);
    }
  }

  lemma {:induction false} NumberGrows(dirs: seq<string>, i: nat, j: nat)
    requires i <= j < |dirs|
    ensures Number(dirs, i) <= Number(dirs, j)
    decreases j
  {
    if i < j { NumberGrows(dirs, i, j - 1); }
  }

  /** On grouped entries the list of the first i + 1 entries ends with entry i's directory, at entry i's number. */
  lemma {:induction false} GroupedNumbers(dirs: seq<string>, i: nat)
    requires Grouped(dirs) && i < |dirs|
    ensures |Distinct(dirs[..i + 1])| == Number(dirs, i) + 1
    ensures Distinct(dirs[..i + 1])[Number(dirs, i)] == dirs[i]
  {
    assert dirs[..i + 1] == dirs[..i] + [dirs[i]];
    DistinctOfAppend(dirs[..i], dirs[i]);
    DistinctIsASet(dirs[..i]);
    if i > 0 {
      GroupedNumbers(dirs, i - 1);
      assert dirs[..i - 1 + 1] == dirs[..i];
      if dirs[i] in dirs[..i] {
        var h :| 0 <= h < i && dirs[h] == dirs[i];
        assert dirs[i - 1] == dirs[i];
      }
    }
  }

  lemma GroupedDecodes(dirs: seq<string>, i: nat)
    requires Grouped(dirs) && i < |dirs|
    ensures Decodes(dirs, Distinct(dirs), i)
  {
    GroupedNumbers(dirs, i);
    DistinctOfPrefix(dirs, i + 1);
  }

  lemma SameNumberSameDirectory(dirs: seq<string>, labels: seq<string>, i: nat, j: nat, k: nat)
    requires i < j < k < |dirs| && dirs[i] == dirs[k]
    requires Decodes(dirs, labels, i) && Decodes(dirs, labels, j) && Decodes(dirs, labels, k)
    requires forall p, q :: 0 <= p < q < |labels| ==> labels[p] != labels[q]
    ensures dirs[j] == dirs[i]
  {
    NumberGrows(dirs, i, j);
    NumberGrows(dirs, j, k);
  }

  /** Labelling is right exactly on grouped input. */
  lemma LabellingIsRightIffGrouped(dirs: seq<string>)
    ensures WellLabelled(dirs, Distinct(dirs)) <==> Grouped(dirs)
  {
    if Grouped(dirs) {
      forall i | 0 <= i < |dirs| ensures Decodes(dirs, Distinct(dirs), i) { GroupedDecodes(dirs, i); }
    }
    if WellLabelled(dirs, Distinct(dirs)) {
      DistinctIsASet(dirs);
      forall i, j, k | 0 <= i < j < k < |dirs| && dirs[i] == dirs[k] ensures dirs[j] == dirs[i] {
        SameNumberSameDirectory(dirs, Distinct(dirs), i, j, k);
      }
    }
  }
}
