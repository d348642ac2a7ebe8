/** The lines of a label index file: written with a parent directory, read back as path and label. */
module IndexLines {
  import opened Documents
  import opened Text
  import opened Labels

  /** What `addParentDirToToc` makes of one entry; None where the Go code indexes past the end. */
  function ParentLine(entry: string, dir: string): Option<string> {
    var components := Split(entry, ' ');
    if |components| < 2 then None else Some(Join(dir, components[0]) + " " + components[1])
  }

  /** An entry gets a line if and only if it has a space; the line has the words before and behind it. */
  lemma ParentLineIff(entry: string, x: string, y: string, dir: string)
    ensures ParentLine(entry, dir).Some? <==> ' ' in entry
    ensures ' ' !in x && ' ' !in y ==> ParentLine(x + " " + y, dir) == Some(Join(dir, x) + " " + y)
  {
    if ' ' !in entry {
      SplitWithoutSeparator(entry, ' ');
    } else {
      var i :| 0 <= i < |entry| && entry[i] == ' ';
      assert entry == entry[..i] + [' '] + entry[i + 1..];
      SplitAtSeparator(entry[..i], ' ', entry[i + 1..]);
    }
    if ' ' !in x && ' ' !in y { TwoWords(x, y); }
  }

  /** Prefixes the path of every entry and keeps the order; stops at an entry without a space. */
  method AddParentDirToToc(tableOfContents: seq<string>, dir: string) returns (tocWithDir: Option<seq<string>>)
    ensures tocWithDir.Some? <==> forall i :: 0 <= i < |tableOfContents| ==> ParentLine(tableOfContents[i], dir).Some?
    ensures tocWithDir.Some? ==> |tocWithDir.value| == |tableOfContents|
    ensures tocWithDir.Some? ==> forall i :: 0 <= i < |tableOfContents| ==>
              ParentLine(tableOfContents[i], dir) == Some(tocWithDir.value[i])
  {
    var lines := [];
    for n := 0 to |tableOfContents|
      invariant |lines| == n && forall i :: 0 <= i < n ==> ParentLine(tableOfContents[i], dir) == Some(lines[i])
    {
      var line := ParentLine(tableOfContents[n], dir);
      if line.None? {
        return None;
      }
      lines := lines + [line.value];
    }
    return Some(lines);
  }

  /** Reads one row of an index: exactly two components, the file name and the label. */
  function FindComponentsFromIndexRow(line: string): Option<(string, string)> {
    var components := Split(line, ' ');
    if |components| != 2 then None else Some((components[0], components[1]))
  }

  lemma TwoWords(x: string, y: string)
    requires ' ' !in x && ' ' !in y
    ensures Split(x + " " + y, ' ') == [x, y]
  {
    SplitAtSeparator(x, ' ', y);
    SplitWithoutSeparator(x, ' ');
    SplitWithoutSeparator(y, ' ');
  }

  /** A row is read exactly if it is two space-free words with one space between them. */
  lemma RowIsReadIff(line: string, x: string, y: string)
    ensures FindComponentsFromIndexRow(line) == Some((x, y)) <==> ' ' !in x && ' ' !in y && line == x + " " + y
  {
    if ' ' !in x && ' ' !in y && line == x + " " + y {
      TwoWords(x, y);
    }
    if FindComponentsFromIndexRow(line) == Some((x, y)) {
      var parts := Split(line, ' ');
      SplitPartsAreClean(line, ' ');
      JoinOfSplit(line, ' ');
      assert parts == [x, y] && x in parts && y in parts;
      assert parts[1..] == [y];
    }
  }

  /** Every labelled line can be prefixed. */
  lemma LabelledLinesHaveParents(name: string, number: nat, dir: string)
    ensures ParentLine(Line(name, number), dir).Some?
  {
    SplitAtSeparator(name, ' ', Decimal(number));
  }

  /** The row that is written for an entry. */
  function Row(name: string, number: nat, dir: string): string {
    LabelledLinesHaveParents(name, number, dir);
    ParentLine(Line(name, number), dir).value
  }

  /** A space-free name and its label come back from the written row. */
  lemma RowRoundTrip(name: string, number: nat, dir: string)
    requires ' ' !in name && ' ' !in dir
    ensures FindComponentsFromIndexRow(Row(name, number, dir)) == Some((Join(dir, name), Decimal(number)))
  {
    DecimalHasNoSpace(number);
    TwoWords(name, Decimal(number));
    JoinAddsNoSpace(dir, name);
    TwoWords(Join(dir, name), Decimal(number));
  }

  /** The file names that come out of a row never contain a space. */
  lemma ReadNamesHaveNoSpace(line: string)
    requires FindComponentsFromIndexRow(line).Some?
    ensures ' ' !in FindComponentsFromIndexRow(line).value.0
  {
    SplitPartsAreClean(line, ' ');
    assert Split(line, ' ')[0] in Split(line, ' ');
  }

  /** For canonical names the round trip holds exactly when the name has no space, and then the
      path that is read is the name behind its parent directory. */
  lemma RowRoundTripIff(name: string, number: nat, dir: string)
    requires Canonical(name) && Proper(dir) && ' ' !in dir
    ensures FindComponentsFromIndexRow(Row(name, number, dir)) == Some((dir + "/" + name, Decimal(number)))
       <==> ' ' !in name
  {
    JoinPrefixes(dir, name);
    if ' ' !in name {
      RowRoundTrip(name, number, dir);
    } else if FindComponentsFromIndexRow(Row(name, number, dir)).Some? {
      ReadNamesHaveNoSpace(Row(name, number, dir));
      var i :| 0 <= i < |name| && name[i] == ' ';
      assert (dir + "/" + name)[|dir| + 1 + i] == ' ';
    }
  }

  lemma LinesHaveParents(lines: seq<string>, toc: seq<string>, dir: string)
    requires |lines| == |toc|
    requires forall i {:trigger lines[i]} :: 0 <= i < |toc| ==> lines[i] == Line(toc[i], Number(Dirs(toc), i))
    ensures forall i {:trigger lines[i]} :: 0 <= i < |toc| ==>
              ParentLine(lines[i], dir) == Some(Row(toc[i], Number(Dirs(toc), i), dir))
  {
    forall i {:trigger lines[i]} | 0 <= i < |toc|
      ensures ParentLine(lines[i], dir) == Some(Row(toc[i], Number(Dirs(toc), i), dir))
    {
      LabelledLinesHaveParents(toc[i], Number(Dirs(toc), i), dir);
    }
  }

  /** The whole index of a table of contents: as many rows as entries, in their order, and each row
      of a space-free name, behind a space-free directory, read back gives its path and its number. */
  method WriteIndex(toc: seq<string>, dir: string) returns (rows: seq<string>, labels: seq<string>)
    ensures labels == Distinct(Dirs(toc)) && |rows| == |toc|
    ensures forall i {:trigger rows[i]} :: 0 <= i < |toc| ==> rows[i] == Row(toc[i], Number(Dirs(toc), i), dir)
    ensures forall i {:trigger rows[i]} :: 0 <= i < |toc| && ' ' !in dir && ' ' !in toc[i] ==>
              FindComponentsFromIndexRow(rows[i]) == Some((Join(dir, toc[i]), Decimal(Number(Dirs(toc), i))))
  {
    var lines;
    lines, labels := AddLabelsToToc(toc);
    var prefixed := AddParentDirToToc(lines, dir);
    LinesHaveParents(lines, toc, dir);
    rows := prefixed.value;
    RowsReadBack(rows, toc, dir);
  }

  lemma RowsReadBack(rows: seq<string>, toc: seq<string>, dir: string)
    requires |rows| == |toc|
    requires forall i {:trigger rows[i]} :: 0 <= i < |toc| ==> rows[i] == Row(toc[i], Number(Dirs(toc), i), dir)
    ensures forall i {:trigger rows[i]} :: 0 <= i < |toc| && ' ' !in dir && ' ' !in toc[i] ==>
              FindComponentsFromIndexRow(rows[i]) == Some((Join(dir, toc[i]), Decimal(Number(Dirs(toc), i))))
  {
    forall i {:trigger rows[i]} | 0 <= i < |toc| && ' ' !in dir && ' ' !in toc[i]
      ensures FindComponentsFromIndexRow(rows[i]) == Some((Join(dir, toc[i]), Decimal(Number(Dirs(toc), i))))
    {
      RowRoundTrip(toc[i], Number(Dirs(toc), i), dir);
    }
  }
}
