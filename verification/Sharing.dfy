/** Splitting a sequence by ratio within each key. For the splitter the items are archive entries
    and the key of an entry is its directory. */
module Sharing {
  import opened Allocation

  /** The number of items with key d. */
  function CountKey<T>(key: T -> string, items: seq<T>, d: string): nat {
    if items == [] then 0
    else CountKey(key, items[..|items| - 1], d) + if key(items[|items| - 1]) == d then 1 else 0
  }

  /** Whether an item goes to training that comes right after `before`: the decision is that of its
      rank among the items of its own key. */
  predicate Trains<T>(key: T -> string, before: seq<T>, item: T, a: int, b: int) {
    Decision(CountKey(key, before, key(item)), a, b)
  }

  /** The items that go to training (`side`) or to test (`!side`), in their order. */
  function Part<T>(key: T -> string, items: seq<T>, a: int, b: int, side: bool): seq<T> {
    if items == [] then []
    else
      var n := |items| - 1;
      Part(key, items[..n], a, b, side) + if Trains(key, items[..n], items[n], a, b) == side then [items[n]] else []
  }

  /** The items with key d, in their order. */
  function OfKey<T>(key: T -> string, items: seq<T>, d: string): seq<T> {
    if items == [] then []
    else OfKey(key, items[..|items| - 1], d) + if key(items[|items| - 1]) == d then [items[|items| - 1]] else []
  }

  lemma CountOfAppend<T>(key: T -> string, items: seq<T>, e: T, d: string)
    ensures CountKey(key, items + [e], d) == CountKey(key, items, d) + if key(e) == d then 1 else 0
  {
    assert (items + [e])[..|items|] == items;
  }

  lemma PartOfAppend<T>(key: T -> string, items: seq<T>, e: T, a: int, b: int, side: bool)
    ensures Trains(key, items, e, a, b) == side ==>
              Part(key, items + [e], a, b, side) == Part(key, items, a, b, side) + [e]
    ensures Trains(key, items, e, a, b) != side ==> Part(key, items + [e], a, b, side) == Part(key, items, a, b, side)
  {
    assert (items + [e])[..|items|] == items;
  }

  lemma OfKeyOfAppend<T>(key: T -> string, items: seq<T>, e: T, d: string)
    ensures key(e) == d ==> OfKey(key, items + [e], d) == OfKey(key, items, d) + [e]
    ensures key(e) != d ==> OfKey(key, items + [e], d) == OfKey(key, items, d)
  {
    assert (items + [e])[..|items|] == items;
  }

  lemma {:induction false} PartGrows<T>(key: T -> string, items: seq<T>, i: nat, a: int, b: int, side: bool)
    requires i <= |items|
    ensures |Part(key, items[..i], a, b, side)| <= |Part(key, items, a, b, side)|
    decreases |items| - i
  {
    if i == |items| {
      assert items[..i] == items;
    } else {
      PartGrows(key, items, i + 1, a, b, side);
      assert items[..i + 1] == items[..i] + [items[i]];
      PartOfAppend(key, items[..i], items[i], a, b, side);
    }
  }

  /** Which items go to training. */
  function Mask<T>(key: T -> string, items: seq<T>, a: int, b: int): (mask: seq<bool>)
    ensures |mask| == |items|
  {
    if items == [] then []
    else Mask(key, items[..|items| - 1], a, b) + [Trains(key, items[..|items| - 1], items[|items| - 1], a, b)]
  }

  /** Two sequences laid back together: each mask bit says which one the next element comes from. */
  function Merge<T>(mask: seq<bool>, x: seq<T>, y: seq<T>): seq<T> {
    if mask == [] then []
    else
      var n := |mask| - 1;
      if mask[n] then if x == [] then [] else Merge(mask[..n], x[..|x| - 1], y) + [x[|x| - 1]]
      else if y == [] then [] else Merge(mask[..n], x, y[..|y| - 1]) + [y[|y| - 1]]
  }

  lemma MergeOfAppend<T>(mask: seq<bool>, x: seq<T>, y: seq<T>, e: T)
    ensures Merge(mask + [true], x + [e], y) == Merge(mask, x, y) + [e]
    ensures Merge(mask + [false], x, y + [e]) == Merge(mask, x, y) + [e]
  {
    assert (mask + [true])[..|mask|] == mask && (mask + [false])[..|mask|] == mask;
    assert (x + [e])[..|x|] == x && (y + [e])[..|y|] == y;
  }

  /** Nothing is lost, repeated or reordered: laid back together, the two parts are the source. */
  lemma {:induction false} PartsMergeBack<T>(key: T -> string, items: seq<T>, a: int, b: int)
    ensures Merge(Mask(key, items, a, b), Part(key, items, a, b, true), Part(key, items, a, b, false)) == items
  {
    if items != [] {
      var n := |items| - 1;
      var prev, e := items[..n], items[n];
      PartsMergeBack(key, prev, a, b);
      assert items == prev + [e];
      PartOfAppend(key, prev, e, a, b, true);
      PartOfAppend(key, prev, e, a, b, false);
      MergeOfAppend(Mask(key, prev, a, b), Part(key, prev, a, b, true), Part(key, prev, a, b, false), e);
    }
  }

  lemma {:induction false} OfKeyCounts<T>(key: T -> string, items: seq<T>, d: string)
    ensures CountKey(key, items, d) == |OfKey(key, items, d)| == CountKey(key, OfKey(key, items, d), d)
  {
    if items != [] {
      var prev, e := items[..|items| - 1], items[|items| - 1];
      OfKeyCounts(key, prev, d);
      assert items == prev + [e];
      OfKeyOfAppend(key, prev, e, d);
      CountOfAppend(key, prev, e, d);
      CountOfAppend(key, OfKey(key, prev, d), e, d);
    }
  }

  /** Each key's items are split as if they were alone, however the keys interleave. */
  lemma {:induction false} KeysAreIndependent<T>(key: T -> string, items: seq<T>, d: string, a: int, b: int, side: bool)
    ensures OfKey(key, Part(key, items, a, b, side), d) == Part(key, OfKey(key, items, d), a, b, side)
  {
    if items != [] {
      var prev, e := items[..|items| - 1], items[|items| - 1];
      KeysAreIndependent(key, prev, d, a, b, side);
      assert items == prev + [e];
      IndependentStep(key, prev, e, d, a, b, side);
    }
  }

  lemma IndependentStep<T>(key: T -> string, prev: seq<T>, e: T, d: string, a: int, b: int, side: bool)
    requires OfKey(key, Part(key, prev, a, b, side), d) == Part(key, OfKey(key, prev, d), a, b, side)
    ensures OfKey(key, Part(key, prev + [e], a, b, side), d) == Part(key, OfKey(key, prev + [e], d), a, b, side)
  {
    PartOfAppend(key, prev, e, a, b, side);
    OfKeyOfAppend(key, prev, e, d);
    OfKeyOfAppend(key, Part(key, prev, a, b, side), e, d);
    OfKeyCounts(key, prev, d);
    PartOfAppend(key, OfKey(key, prev, d), e, a, b, side);
  }

  lemma {:induction false} PartCounts<T>(key: T -> string, items: seq<T>, d: string, a: int, b: int)
    ensures CountKey(key, Part(key, items, a, b, true), d) == After(CountKey(key, items, d), a, b).train
    ensures CountKey(key, Part(key, items, a, b, false), d) == After(CountKey(key, items, d), a, b).test
  {
    if items != [] {
      var prev, e := items[..|items| - 1], items[|items| - 1];
      PartCounts(key, prev, d, a, b);
      CountStep(key, prev, e, d, a, b);
      assert items == prev + [e];
    }
  }

  lemma CountStep<T>(key: T -> string, prev: seq<T>, e: T, d: string, a: int, b: int)
    requires CountKey(key, Part(key, prev, a, b, true), d) == After(CountKey(key, prev, d), a, b).train
    requires CountKey(key, Part(key, prev, a, b, false), d) == After(CountKey(key, prev, d), a, b).test
    ensures CountKey(key, Part(key, prev + [e], a, b, true), d) == After(CountKey(key, prev + [e], d), a, b).train
    ensures CountKey(key, Part(key, prev + [e], a, b, false), d) == After(CountKey(key, prev + [e], d), a, b).test
  {
    var side := Trains(key, prev, e, a, b);
    PartOfAppend(key, prev, e, a, b, true);
    PartOfAppend(key, prev, e, a, b, false);
    CountOfAppend(key, prev, e, d);
    CountOfAppend(key, Part(key, prev, a, b, side), e, d);
    AfterNext(CountKey(key, prev, d), a, b);
  }

  /** Of the n items of a key, exactly floor((n*a + b) / (a + b)) are in the training part, and the
      others are in the test part. */
  lemma KeysGetTheirShare<T>(key: T -> string, items: seq<T>, d: string, a: int, b: int)
    requires a >= 1 && b >= 0
    ensures var n := CountKey(key, items, d);
            && CountKey(key, Part(key, items, a, b, true), d) == (n * a + b) / (a + b)
            && CountKey(key, Part(key, items, a, b, false), d) == n - (n * a + b) / (a + b)
  {
    PartCounts(key, items, d, a, b);
    ClosedForm(CountKey(key, items, d), a, b);
  }
}
