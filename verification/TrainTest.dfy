/** What the ratio split does to the label lists of the two parts. Items stand for the entries of
    an archive of files and the key of an item is its directory. */
module TrainTest {
  import opened Allocation
  import opened Sharing
  import opened Labels

  function Keys<T>(key: T -> string, items: seq<T>): (keys: seq<string>)
    ensures |keys| == |items| && forall i :: 0 <= i < |items| ==> keys[i] == key(items[i])
  {
    seq(|items|, i requires 0 <= i < |items| => key(items[i]))
  }

  function LabelsOf<T>(key: T -> string, items: seq<T>): seq<string> {
    Distinct(Keys(key, items))
  }

  lemma KeysOfAppend<T>(key: T -> string, items: seq<T>, e: T)
    ensures Keys(key, items + [e]) == Keys(key, items) + [key(e)]
  {
  }

  lemma LabelsOfAppend<T>(key: T -> string, items: seq<T>, e: T)
    ensures key(e) in LabelsOf(key, items) ==> LabelsOf(key, items + [e]) == LabelsOf(key, items)
    ensures key(e) !in LabelsOf(key, items) ==> LabelsOf(key, items + [e]) == LabelsOf(key, items) + [key(e)]
  {
    KeysOfAppend(key, items, e);
    DistinctOfAppend(Keys(key, items), key(e));
  }

  lemma {:induction false} LabelsAreTheCounted<T>(key: T -> string, items: seq<T>, d: string)
    ensures d in LabelsOf(key, items) <==> CountKey(key, items, d) > 0
  {
    if items != [] {
      var prev, e := items[..|items| - 1], items[|items| - 1];
      LabelsAreTheCounted(key, prev, d);
      assert items == prev + [e];
      LabelsOfAppend(key, prev, e);
      CountOfAppend(key, prev, e, d);
    }
  }

  /** The first item of every key goes to training, whatever the ratios: the training labels are
      all labels, in first-appearance order. */
  lemma {:induction false} TrainingHasAllLabels<T>(key: T -> string, items: seq<T>, a: int, b: int)
    ensures LabelsOf(key, Part(key, items, a, b, true)) == LabelsOf(key, items)
  {
    if items != [] {
      var prev, e := items[..|items| - 1], items[|items| - 1];
      TrainingHasAllLabels(key, prev, a, b);
      assert items == prev + [e];
      PartOfAppend(key, prev, e, a, b, true);
      LabelsOfAppend(key, prev, e);
      LabelsOfAppend(key, Part(key, prev, a, b, true), e);
      LabelsAreTheCounted(key, prev, key(e));
    }
  }

  lemma {:induction false} TestGetsTheSecond(n: nat, a: int, b: int)
    requires b >= 1
    ensures After(n, a, b).test > 0 <==> n >= 2
  {
    if n > 2 { TestGetsTheSecond(n - 1, a, b); }
    FirstTrainsSecondTests(a, b);
    assert After(1, a, b) == Counts(1, 0) && After(2, a, b) == Counts(1, 1);
  }

  /** A key is a test label if and only if it has at least two items. */
  lemma TestLabelsAreTheRepeated<T>(key: T -> string, items: seq<T>, d: string, a: int, b: int)
    requires b >= 1
    ensures d in LabelsOf(key, Part(key, items, a, b, false)) <==> CountKey(key, items, d) >= 2
  {
    LabelsAreTheCounted(key, Part(key, items, a, b, false), d);
    PartCounts(key, items, d, a, b);
    TestGetsTheSecond(CountKey(key, items, d), a, b);
  }

  /** The labels with at least two items, in the order of the list. */
  function Repeated<T>(key: T -> string, items: seq<T>, labels: seq<string>): seq<string> {
    if labels == [] then []
    else
      var last := labels[|labels| - 1];
      Repeated(key, items, labels[..|labels| - 1]) + if CountKey(key, items, last) >= 2 then [last] else []
  }

  lemma RepeatedOfAppend<T>(key: T -> string, items: seq<T>, labels: seq<string>, d: string)
    ensures CountKey(key, items, d) >= 2 ==> Repeated(key, items, labels + [d]) == Repeated(key, items, labels) + [d]
    ensures CountKey(key, items, d) < 2 ==> Repeated(key, items, labels + [d]) == Repeated(key, items, labels)
  {
    assert (labels + [d])[..|labels|] == labels;
  }

  /** One more item changes nothing for the other labels. */
  lemma {:induction false} RepeatedIgnoresOthers<T>(key: T -> string, items: seq<T>, e: T, labels: seq<string>)
    requires key(e) !in labels
    ensures Repeated(key, items + [e], labels) == Repeated(key, items, labels)
  {
    if labels != [] {
      RepeatedIgnoresOthers(key, items, e, labels[..|labels| - 1]);
      CountOfAppend(key, items, e, labels[|labels| - 1]);
    }
  }

  lemma GroupedPrefix(keys: seq<string>, k: string)
    requires Grouped(keys + [k])
    ensures Grouped(keys)
    ensures k in Distinct(keys) ==> Distinct(keys) != [] && Distinct(keys)[|Distinct(keys)| - 1] == k
  {
    var all := keys + [k];
    forall i, j, l | 0 <= i < j < l < |keys| && keys[i] == keys[l] ensures keys[j] == keys[i] {
      assert all[i] == all[l] ==> all[j] == all[i];
    }
    DistinctIsASet(keys);
    if k in Distinct(keys) {
      var h :| 0 <= h < |keys| && keys[h] == k;
      var n := |keys| - 1;
      assert all[h] == all[n + 1] == k && all[n] == keys[n];
      assert keys[n] == k;
      GroupedNumbers(keys, n);
      assert keys[..n + 1] == keys;
    }
  }

  /** On a grouped archive the test labels are the labels with at least two items, in the order of
      all labels. */
  lemma {:induction false} TestLabelsOfGrouped<T>(key: T -> string, items: seq<T>, a: int, b: int)
    requires b >= 1 && Grouped(Keys(key, items))
    ensures LabelsOf(key, Part(key, items, a, b, false)) == Repeated(key, items, LabelsOf(key, items))
  {
    if items != [] {
      var prev, e := items[..|items| - 1], items[|items| - 1];
      assert items == prev + [e];
      KeysOfAppend(key, prev, e);
      GroupedPrefix(Keys(key, prev), key(e));
      TestLabelsOfGrouped(key, prev, a, b);
      TestLabelsStep(key, prev, e, a, b);
    }
  }

  lemma TestLabelsStep<T>(key: T -> string, prev: seq<T>, e: T, a: int, b: int)
    requires b >= 1 && LabelsOf(key, Part(key, prev, a, b, false)) == Repeated(key, prev, LabelsOf(key, prev))
    requires var all := LabelsOf(key, prev); key(e) in all ==> all != [] && all[|all| - 1] == key(e)
    ensures LabelsOf(key, Part(key, prev + [e], a, b, false)) == Repeated(key, prev + [e], LabelsOf(key, prev + [e]))
  {
    var all, k, n := LabelsOf(key, prev), key(e), CountKey(key, prev, key(e));
    LabelsOfAppend(key, prev, e);
    LabelsAreTheCounted(key, prev, k);
    CountOfAppend(key, prev, e, k);
    PartOfAppend(key, prev, e, a, b, false);
    LabelsOfAppend(key, Part(key, prev, a, b, false), e);
    TestLabelsAreTheRepeated(key, prev, k, a, b);
    FirstTrainsSecondTests(a, b);
    if n == 0 {
      RepeatedIgnoresOthers(key, prev, e, all);
      RepeatedOfAppend(key, prev + [e], all, k);
    } else {
      var others := all[..|all| - 1];
      assert all == others + [k];
      DistinctIsASet(Keys(key, prev));
      RepeatedIgnoresOthers(key, prev, e, others);
      RepeatedOfAppend(key, prev + [e], others, k);
      RepeatedOfAppend(key, prev, others, k);
    }
  }

  lemma {:induction false} RepeatedKeepsAll<T>(key: T -> string, items: seq<T>, labels: seq<string>)
    requires forall d :: d in labels ==> CountKey(key, items, d) >= 2
    ensures Repeated(key, items, labels) == labels
  {
    if labels != [] {
      RepeatedKeepsAll(key, items, labels[..|labels| - 1]);
      assert labels == labels[..|labels| - 1] + [labels[|labels| - 1]];
    }
  }

  /** The training and the test label list of a grouped archive are equal if and only if every
      directory has at least two files. */
  lemma LabelListsAgreeIff<T>(key: T -> string, items: seq<T>, a: int, b: int)
    requires b >= 1 && Grouped(Keys(key, items))
    ensures LabelsOf(key, Part(key, items, a, b, true)) == LabelsOf(key, Part(key, items, a, b, false))
       <==> forall d :: d in LabelsOf(key, items) ==> CountKey(key, items, d) >= 2
  {
    TrainingHasAllLabels(key, items, a, b);
    TestLabelsOfGrouped(key, items, a, b);
    if forall d :: d in LabelsOf(key, items) ==> CountKey(key, items, d) >= 2 {
      RepeatedKeepsAll(key, items, LabelsOf(key, items));
    }
    forall d | d in LabelsOf(key, Part(key, items, a, b, false)) ensures CountKey(key, items, d) >= 2 {
      TestLabelsAreTheRepeated(key, items, d, a, b);
    }
  }

  lemma EndsWithLastLabel(keys: seq<string>)
    requires Grouped(keys) && keys != []
    ensures Distinct(keys) != [] && Distinct(keys)[|Distinct(keys)| - 1] == keys[|keys| - 1]
  {
    GroupedNumbers(keys, |keys| - 1);
    assert keys[..|keys| - 1 + 1] == keys;
  }

  lemma GroupedAppend(keys: seq<string>, k: string)
    requires Grouped(keys)
    requires k in Distinct(keys) ==> Distinct(keys)[|Distinct(keys)| - 1] == k
    ensures Grouped(keys + [k])
  {
    DistinctIsASet(keys);
    if keys != [] { EndsWithLastLabel(keys); }
    GroupedIfLast(keys, k);
  }

  lemma GroupedIfLast(keys: seq<string>, k: string)
    requires Grouped(keys) && (k in keys ==> keys[|keys| - 1] == k)
    ensures Grouped(keys + [k])
  {
    var all, n := keys + [k], |keys|;
    forall i, j, l | 0 <= i < j < l < |all| && all[i] == all[l] ensures all[j] == all[i] {
      assert all[i] == keys[i] && all[j] == keys[j];
      if l == n {
        assert keys[i] in keys;
        assert keys[n - 1] == keys[i];
      }
    }
  }

  lemma {:induction false} RepeatedAreLabels<T>(key: T -> string, items: seq<T>, labels: seq<string>)
    ensures forall d :: d in Repeated(key, items, labels) <==> d in labels && CountKey(key, items, d) >= 2
    ensures |Repeated(key, items, labels)| <= |labels|
  {
    if labels != [] {
      RepeatedAreLabels(key, items, labels[..|labels| - 1]);
      assert labels == labels[..|labels| - 1] + [labels[|labels| - 1]];
    }
  }

  /** Both parts of a grouped archive are grouped, so each part is labelled rightly by its own list. */
  lemma {:induction false} PartsOfGroupedAreGrouped<T>(key: T -> string, items: seq<T>, a: int, b: int, side: bool)
    requires b >= 1 && Grouped(Keys(key, items))
    ensures Grouped(Keys(key, Part(key, items, a, b, side)))
  {
    if items != [] {
      var prev, e := items[..|items| - 1], items[|items| - 1];
      assert items == prev + [e];
      KeysOfAppend(key, prev, e);
      GroupedPrefix(Keys(key, prev), key(e));
      PartsOfGroupedAreGrouped(key, prev, a, b, side);
      PartOfAppend(key, prev, e, a, b, side);
      KeysOfAppend(key, Part(key, prev, a, b, side), e);
      LastLabelOfPart(key, prev, key(e), a, b, side);
      GroupedAppend(Keys(key, Part(key, prev, a, b, side)), key(e));
    }
  }

  lemma LastLabelOfPart<T>(key: T -> string, items: seq<T>, k: string, a: int, b: int, side: bool)
    requires b >= 1 && Grouped(Keys(key, items))
    requires var all := LabelsOf(key, items); k in all ==> all[|all| - 1] == k
    ensures var labels := LabelsOf(key, Part(key, items, a, b, side)); k in labels ==> labels[|labels| - 1] == k
  {
    if side {
      TrainingHasAllLabels(key, items, a, b);
    } else {
      TestLabelsOfGrouped(key, items, a, b);
      LastRepeated(key, items, LabelsOf(key, items), k);
    }
  }

  lemma LastRepeated<T>(key: T -> string, items: seq<T>, all: seq<string>, k: string)
    requires k in all ==> all[|all| - 1] == k
    ensures var r := Repeated(key, items, all); k in r ==> r[|r| - 1] == k
  {
    RepeatedAreLabels(key, items, all);
    if k in Repeated(key, items, all) {
      assert all == all[..|all| - 1] + [k];
      RepeatedOfAppend(key, items, all[..|all| - 1], k);
    }
  }

  /** Another list decodes the numbers of grouped entries if and only if it starts with their own list. */
  lemma DecodesWithOtherListIff(dirs: seq<string>, labels: seq<string>)
    requires Grouped(dirs)
    ensures WellLabelled(dirs, labels) <==> Distinct(dirs) <= labels
  {
    DistinctIsASet(dirs);
    if Distinct(dirs) <= labels {
      forall i | 0 <= i < |dirs| ensures Decodes(dirs, labels, i) { GroupedDecodes(dirs, i); }
    }
    if WellLabelled(dirs, labels) {
      if Distinct(dirs) != [] { OwnNumber(dirs, labels, |Distinct(dirs)| - 1); }
      forall p | 0 <= p < |Distinct(dirs)| ensures Distinct(dirs)[p] == labels[p] {
        OwnNumber(dirs, labels, p);
      }
      assert Distinct(dirs) == labels[..|Distinct(dirs)|];
    }
  }

  lemma OwnNumber(dirs: seq<string>, labels: seq<string>, p: nat)
    requires Grouped(dirs) && p < |Distinct(dirs)| && WellLabelled(dirs, labels)
    ensures p < |labels| && labels[p] == Distinct(dirs)[p]
  {
    DistinctIsASet(dirs);
    assert Distinct(dirs)[p] in dirs;
    var i :| 0 <= i < |dirs| && dirs[i] == Distinct(dirs)[p];
    GroupedDecodes(dirs, i);
    assert Decodes(dirs, labels, i);
    assert Number(dirs, i) == p;
  }

  /** No label with fewer than two items comes before one with at least two. */
  ghost predicate SinglesComeLast<T>(key: T -> string, items: seq<T>, labels: seq<string>) {
    forall p, q :: 0 <= p < q < |labels| && CountKey(key, items, labels[q]) >= 2 ==>
          CountKey(key, items, labels[p]) >= 2
  }

  lemma {:induction false} RepeatedIsPrefixIff<T>(key: T -> string, items: seq<T>, labels: seq<string>)
    requires forall p, q :: 0 <= p < q < |labels| ==> labels[p] != labels[q]
    ensures Repeated(key, items, labels) <= labels <==> SinglesComeLast(key, items, labels)
  {
    if labels != [] {
      var rest, d := labels[..|labels| - 1], labels[|labels| - 1];
      assert labels == rest + [d];
      RepeatedIsPrefixIff(key, items, rest);
      RepeatedOfAppend(key, items, rest, d);
      RepeatedAreLabels(key, items, rest);
      if CountKey(key, items, d) >= 2 {
        LastIsRepeated(key, items, rest, d);
      } else {
        LastIsSingle(key, items, rest, d);
      }
    }
  }

  lemma LastIsRepeated<T>(key: T -> string, items: seq<T>, rest: seq<string>, d: string)
    requires CountKey(key, items, d) >= 2 && d !in rest
    ensures Repeated(key, items, rest + [d]) <= rest + [d] <==> SinglesComeLast(key, items, rest + [d])
  {
    RepeatedOfAppend(key, items, rest, d);
    RepeatedAreLabels(key, items, rest);
    if Repeated(key, items, rest + [d]) <= rest + [d] {
      ExtendedPrefix(Repeated(key, items, rest), rest, d);
      NoSingles(key, items, rest + [d]);
    }
    if SinglesComeLast(key, items, rest + [d]) {
      BeforeRepeated(key, items, rest, d);
      RepeatedKeepsAll(key, items, rest);
    }
  }

  lemma NoSingles<T>(key: T -> string, items: seq<T>, labels: seq<string>)
    requires forall e :: e in labels ==> CountKey(key, items, e) >= 2
    ensures SinglesComeLast(key, items, labels)
  {
  }

  lemma BeforeRepeated<T>(key: T -> string, items: seq<T>, rest: seq<string>, d: string)
    requires CountKey(key, items, d) >= 2 && SinglesComeLast(key, items, rest + [d])
    ensures forall e :: e in rest ==> CountKey(key, items, e) >= 2
  {
    var all := rest + [d];
    forall e | e in rest ensures CountKey(key, items, e) >= 2 {
      var p :| 0 <= p < |rest| && rest[p] == e;
      assert all[p] == e && all[|rest|] == d;
    }
  }

  lemma ExtendedPrefix(r: seq<string>, rest: seq<string>, d: string)
    requires d !in rest && |r| <= |rest| && r + [d] <= rest + [d]
    ensures r == rest
  {
    assert (r + [d])[|r|] == (rest + [d])[|r|] == d;
    assert |r| == |rest|;
    assert forall i :: 0 <= i < |r| ==> r[i] == (r + [d])[i] == (rest + [d])[i] == rest[i];
  }

  lemma LastIsSingle<T>(key: T -> string, items: seq<T>, rest: seq<string>, d: string)
    requires CountKey(key, items, d) < 2 && Repeated(key, items, rest + [d]) == Repeated(key, items, rest)
    requires |Repeated(key, items, rest)| <= |rest|
    requires Repeated(key, items, rest) <= rest <==> SinglesComeLast(key, items, rest)
    ensures Repeated(key, items, rest + [d]) <= rest + [d] <==> SinglesComeLast(key, items, rest + [d])
  {
    var all := rest + [d];
    if SinglesComeLast(key, items, all) {
      forall p, q | 0 <= p < q < |rest| && CountKey(key, items, rest[q]) >= 2
        ensures CountKey(key, items, rest[p]) >= 2 {
        assert all[p] == rest[p] && all[q] == rest[q];
      }
    }
    assert Repeated(key, items, rest) <= all <==> Repeated(key, items, rest) <= rest;
  }

  /** The numbers in the test index mean the same directories as in the training label list (the
      only one that is kept) if and only if no directory with a single file comes before one with
      more. */
  lemma TestNumbersMatchTrainingLabelsIff<T>(key: T -> string, items: seq<T>, a: int, b: int)
    requires b >= 1 && Grouped(Keys(key, items))
    ensures WellLabelled(Keys(key, Part(key, items, a, b, false)), LabelsOf(key, Part(key, items, a, b, true)))
       <==> SinglesComeLast(key, items, LabelsOf(key, items))
  {
    PartsOfGroupedAreGrouped(key, items, a, b, false);
    DecodesWithOtherListIff(Keys(key, Part(key, items, a, b, false)), LabelsOf(key, Part(key, items, a, b, true)));
    TrainingHasAllLabels(key, items, a, b);
    TestLabelsOfGrouped(key, items, a, b);
    DistinctIsASet(Keys(key, items));
    RepeatedIsPrefixIff(key, items, LabelsOf(key, items));
  }

  /** Some item of the sequence has the property. */
  ghost predicate Has<T(!new)>(items: seq<T>, p: T -> bool) {
    exists e :: e in items && p(e)
  }

  /** Some item has the property whose rank goes to the given part. */
  ghost predicate HasAt<T(!new)>(items: seq<T>, p: T -> bool, a: int, b: int, side: bool) {
    exists r :: 0 <= r < |items| && p(items[r]) && Decision(r, a, b) == side
  }

  lemma HasOfAppend<T(!new)>(items: seq<T>, e: T, p: T -> bool)
    ensures Has(items + [e], p) <==> Has(items, p) || p(e)
  {
    assert forall x :: x in items + [e] <==> x in items || x == e;
  }

  lemma HasAtOfAppend<T(!new)>(items: seq<T>, e: T, p: T -> bool, a: int, b: int, side: bool)
    ensures HasAt(items + [e], p, a, b, side) <==>
              HasAt(items, p, a, b, side) || (p(e) && Decision(|items|, a, b) == side)
  {
    if r :| 0 <= r < |items| && p(items[r]) && Decision(r, a, b) == side {
      assert p((items + [e])[r]);
    }
    assert (items + [e])[|items|] == e;
  }

  /** Of the items of one key, those at the ranks of a part make up that part. */
  lemma {:induction false} PartOfOneKey<T(!new)>(key: T -> string, own: seq<T>, d: string, p: T -> bool, a: int, b: int,
        side: bool)
    requires forall e :: e in own ==> key(e) == d
    ensures CountKey(key, own, d) == |own|
    ensures Has(Part(key, own, a, b, side), p) <==> HasAt(own, p, a, b, side)
  {
    if own != [] {
      var prev, e := own[..|own| - 1], own[|own| - 1];
      assert own == prev + [e] && e in own && forall x :: x in prev ==> x in own;
      PartOfOneKey(key, prev, d, p, a, b, side);
      CountOfAppend(key, prev, e, d);
      PartOfAppend(key, prev, e, a, b, side);
      HasAtOfAppend(prev, e, p, a, b, side);
      HasOfAppend(Part(key, prev, a, b, side), e, p);
    }
  }

  /** Whatever directory entries stand among the files of a directory, and wherever: a part gets a file
      of that directory if and only if some file has a rank, counted with the directory entries, that
      the splitter sends there. */
  lemma PartGetsAFileIff<T(!new)>(key: T -> string, file: T -> bool, items: seq<T>, d: string, a: int, b: int,
        side: bool)
    ensures Has(OfKey(key, Part(key, items, a, b, side), d), file) <==>
              HasAt(OfKey(key, items, d), file, a, b, side)
  {
    OfKeyHasKey(key, items, d);
    KeysAreIndependent(key, items, d, a, b, side);
    PartOfOneKey(key, OfKey(key, items, d), d, file, a, b, side);
  }

  lemma {:induction false} SecondInTraining(n: nat, a: int, b: int)
    ensures After(n + 1, a, b).train >= 1
    ensures After(n + 1, a, b).train >= 2 <==> exists r: nat :: 1 <= r <= n && Decision(r, a, b)
  {
    if n == 0 {
      assert After(1, a, b) == Counts(1, 0);
    } else {
      SecondInTraining(n - 1, a, b);
      AfterNext(n, a, b);
    }
  }

  lemma TwoInTraining(n: nat, a: int, b: int)
    requires a >= 1 && b >= 0
    ensures After(n + 1, a, b).train >= 2 <==> (n - 1) * a >= b
  {
    Balance(n + 1, a, b);
    TwoInTrainingBounds(After(n + 1, a, b).train, n + 1, a, b);
  }

  lemma TwoInTrainingBounds(c: int, m: int, a: int, b: int)
    requires a >= 1 && b >= 0 && 1 - a <= c * b - (m - c) * a <= b
    ensures c >= 2 <==> (m - 2) * a >= b
  {
    assert c * (a + b) == c * b - (m - c) * a + m * a;
    assert (m - 2) * a == m * a - 2 * a;
    if c >= 2 {
      assert (c - 2) * (a + b) >= 0;
      assert (c - 2) * (a + b) == c * (a + b) - 2 * a - 2 * b;
    } else {
      assert (1 - c) * (a + b) >= 0;
      assert (1 - c) * (a + b) == a + b - c * (a + b);
    }
  }

  /** A directory entry takes a slot of its directory: when a directory's entries are its header and
      then n files, training gets a file of it, and so its label, if and only if (n - 1)*a >= b. */
  lemma HeaderCostsATrainingFileIff<T(!new)>(key: T -> string, file: T -> bool, items: seq<T>, h: T, files: seq<T>,
        d: string, a: int, b: int)
    requires a >= 1 && b >= 0 && OfKey(key, items, d) == [h] + files
    requires !file(h) && forall f :: f in files ==> file(f)
    ensures Has(OfKey(key, Part(key, items, a, b, true), d), file) <==> (|files| - 1) * a >= b
  {
    PartGetsAFileIff(key, file, items, d, a, b, true);
    SecondInTraining(|files|, a, b);
    TwoInTraining(|files|, a, b);
    forall r: nat | 1 <= r <= |files| ensures file(([h] + files)[r]) {
      assert ([h] + files)[r] == files[r - 1];
    }
  }

  lemma {:induction false} OfKeyHasKey<T>(key: T -> string, items: seq<T>, d: string)
    ensures forall e :: e in OfKey(key, items, d) ==> key(e) == d
  {
    if items != [] { OfKeyHasKey(key, items[..|items| - 1], d); }
  }
}
