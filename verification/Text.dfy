/** The library calls on strings that the pipeline relies on: strings.Split with a one-character
    separator, path.Clean, path.Dir and path.Join for slash-separated names, the decimal printing
    of an int and strconv.ParseInt(s, 10, 64). */
module Text {
  import opened Documents

  /** strings.HasPrefix. */
  predicate HasPrefix(s: string, prefix: string) {
    prefix <= s
  }

  function Split(s: string, sep: char): (parts: seq<string>)
    ensures parts != []
  {
    if s == "" then [""]
    else
      var rest := Split(s[1..], sep);
      if s[0] == sep then [""] + rest else [[s[0]] + rest[0]] + rest[1..]
  }

  function JoinWith(parts: seq<string>, sep: char): string {
    if parts == [] then "" else if |parts| == 1 then parts[0] else parts[0] + [sep] + JoinWith(parts[1..], sep)
  }

  lemma {:induction false} SplitWithoutSeparator(s: string, sep: char)
    requires sep !in s
    ensures Split(s, sep) == [s]
  {
    if s != "" {
      SplitWithoutSeparator(s[1..], sep);
      assert [s[0]] + s[1..] == s;
    }
  }

  lemma {:induction false} SplitAtSeparator(x: string, sep: char, y: string)
    ensures Split(x + [sep] + y, sep) == Split(x, sep) + Split(y, sep)
  {
    if x == "" {
      assert (x + [sep] + y)[1..] == y;
    } else {
      assert (x + [sep] + y)[1..] == x[1..] + [sep] + y;
      SplitAtSeparator(x[1..], sep, y);
    }
  }

  lemma {:induction false} SplitPartsAreClean(s: string, sep: char)
    ensures forall p :: p in Split(s, sep) ==> sep !in p && forall c :: c in p ==> c in s
  {
    if s != "" {
      SplitPartsAreClean(s[1..], sep);
      var rest := Split(s[1..], sep);
      forall p | p in Split(s, sep) ensures sep !in p && forall c :: c in p ==> c in s {
        if p !in rest && p != "" {
          assert p == [s[0]] + rest[0] && rest[0] in rest;
        }
      }
    }
  }

  lemma {:induction false} JoinOfSplit(s: string, sep: char)
    ensures JoinWith(Split(s, sep), sep) == s
  {
    if s != "" {
      var rest := Split(s[1..], sep);
      JoinOfSplit(s[1..], sep);
      if s[0] == sep {
        assert ([""] + rest)[1..] == rest;
      } else {
        assert ([[s[0]] + rest[0]] + rest[1..])[1..] == rest[1..];
        assert [s[0]] + s[1..] == s;
      }
    }
  }

  lemma {:induction false} JoinChars(parts: seq<string>, sep: char, c: char)
    requires c != sep && forall p :: p in parts ==> c !in p
    ensures c !in JoinWith(parts, sep)
  {
    if |parts| > 1 {
      JoinChars(parts[1..], sep, c);
    }
  }

  /** One path element against the elements kept so far. */
  function Push(kept: seq<string>, element: string, rooted: bool): seq<string> {
    if element == "" || element == "." then kept
    else if element == ".." then
      if kept != [] && kept[|kept| - 1] != ".." then kept[..|kept| - 1]
      else if rooted then kept else kept + [element]
    else kept + [element]
  }

  function Reduce(elements: seq<string>, rooted: bool): seq<string> {
    if elements == [] then [] else Push(Reduce(elements[..|elements| - 1], rooted), elements[|elements| - 1], rooted)
  }

  function Clean(p: string): (r: string)
    ensures r != ""
  {
    var rooted := p != "" && p[0] == '/';
    var body := JoinWith(Reduce(Split(p, '/'), rooted), '/');
    if rooted then "/" + body else if body == "" then "." else body
  }

  /** The name up to and including its last slash. */
  function DirPart(name: string): string {
    if name == "" || name[|name| - 1] == '/' then name else DirPart(name[..|name| - 1])
  }

  /** path.Dir; never the empty string, so "" can mark "no directory yet". */
  function Dir(name: string): (r: string)
    ensures r != ""
  {
    Clean(DirPart(name))
  }

  /** path.Join of two elements. */
  function Join(dir: string, file: string): string {
    if dir != "" then Clean(dir + "/" + file) else if file != "" then Clean(file) else ""
  }

  predicate Proper(element: string) {
    element != "" && element != "." && element != ".." && '/' !in element
  }

  /** A relative name that path.Clean leaves alone and that does not climb out of its directory. */
  predicate Canonical(name: string) {
    forall e :: e in Split(name, '/') ==> Proper(e)
  }

  lemma {:induction false} ReduceProper(elements: seq<string>, rooted: bool)
    requires forall e :: e in elements ==> Proper(e)
    ensures Reduce(elements, rooted) == elements
  {
    if elements != [] {
      ReduceProper(elements[..|elements| - 1], rooted);
      assert Proper(elements[|elements| - 1]);
      assert elements == elements[..|elements| - 1] + [elements[|elements| - 1]];
    }
  }

  lemma {:induction false} ReduceKeepsElements(elements: seq<string>, rooted: bool)
    ensures forall e :: e in Reduce(elements, rooted) ==> e in elements
  {
    if elements != [] {
      var prev, last := elements[..|elements| - 1], elements[|elements| - 1];
      ReduceKeepsElements(prev, rooted);
      assert last in elements && forall e :: e in prev ==> e in elements;
      var kept := Reduce(prev, rooted);
      assert kept != [] ==> forall e :: e in kept[..|kept| - 1] ==> e in kept;
    }
  }

  /** Joining a canonical name to a plain directory name only prefixes it. */
  lemma JoinPrefixes(dir: string, name: string)
    requires Proper(dir) && Canonical(name)
    ensures Join(dir, name) == dir + "/" + name
  {
    var p := dir + "/" + name;
    SplitAtSeparator(dir, '/', name);
    SplitWithoutSeparator(dir, '/');
    var elements := Split(p, '/');
    assert elements == [dir] + Split(name, '/');
    ReduceProper(elements, false);
    JoinOfSplit(p, '/');
  }

  lemma {:induction false} DirPartOfFile(d: string, f: string)
    requires '/' !in f
    ensures DirPart(d + "/" + f) == d + "/"
    decreases |f|
  {
    var name := d + "/" + f;
    if f == "" {
      assert name == d + "/";
    } else {
      assert name[..|name| - 1] == d + "/" + f[..|f| - 1] && name[|name| - 1] == f[|f| - 1];
      DirPartOfFile(d, f[..|f| - 1]);
    }
  }

  lemma CleanDirectory(d: string)
    requires Canonical(d)
    ensures Clean(d + "/") == d
  {
    var p := d + "/";
    assert Split(d, '/')[0] in Split(d, '/');
    assert d != "" && d[0] != '/';
    SplitAtSeparator(d, '/', "");
    assert d + "/" + "" == p;
    var elements := Split(p, '/');
    assert elements == Split(d, '/') + [""];
    assert elements[..|elements| - 1] == Split(d, '/');
    ReduceProper(Split(d, '/'), false);
    JoinOfSplit(d, '/');
  }

  /** A directory entry d/ and every file d/f lie in directory d. */
  lemma DirOfMember(d: string, f: string)
    requires Canonical(d) && '/' !in f
    ensures Dir(d + "/" + f) == d
    ensures Dir(d + "/") == d
  {
    DirPartOfFile(d, f);
    DirPartOfFile(d, "");
    assert d + "/" + "" == d + "/";
    CleanDirectory(d);
  }

  /** A file at the top of an archive lies in directory ".". */
  lemma DirOfTopLevel(f: string)
    requires '/' !in f
    ensures Dir(f) == "."
  {
    DirPartOfTopLevel(f);
    assert Split("", '/') == [""] && Reduce([""], false) == Reduce([], false) == [];
  }

  /** Joining to no directory only cleans the name, and two empty names stay empty. */
  lemma JoinOfEmpty(f: string)
    ensures Join("", "") == "" && (f != "" ==> Join("", f) == Clean(f))
  {
  }

  lemma {:induction false} DirPartOfTopLevel(f: string)
    requires '/' !in f
    ensures DirPart(f) == ""
  {
    if f != "" { DirPartOfTopLevel(f[..|f| - 1]); }
  }

  /** The elements y pushed behind those kept so far. */
  function PushAll(kept: seq<string>, y: seq<string>, rooted: bool): seq<string>
    decreases |y|
  {
    if y == [] then kept else PushAll(Push(kept, y[0], rooted), y[1..], rooted)
  }

  lemma {:induction false} ReduceOfConcat(x: seq<string>, y: seq<string>, rooted: bool)
    ensures Reduce(x + y, rooted) == PushAll(Reduce(x, rooted), y, rooted)
    decreases |y|
  {
    if y == [] {
      assert x + y == x;
    } else {
      assert x + y == (x + [y[0]]) + y[1..] && (x + [y[0]])[..|x|] == x;
      ReduceOfConcat(x + [y[0]], y[1..], rooted);
    }
  }

  function Cleaned(elements: seq<string>, rooted: bool): string {
    var body := JoinWith(Reduce(elements, rooted), '/');
    if rooted then "/" + body else if body == "" then "." else body
  }

  lemma CleanOfThree(x: string, y: string, z: string)
    requires x != ""
    ensures Clean(x + "/" + y + "/" + z) == Cleaned(Split(x, '/') + Split(y, '/') + Split(z, '/'), x[0] == '/')
    ensures Clean(x + "/" + z) == Cleaned(Split(x, '/') + Split(z, '/'), x[0] == '/')
  {
    SplitAtSeparator(x, '/', y);
    SplitAtSeparator(x + "/" + y, '/', z);
    SplitAtSeparator(x, '/', z);
  }

  /** The rules of path.Clean: repeated slashes and "." elements go. */
  lemma CleanDropsDots(x: string, z: string)
    requires x != ""
    ensures Clean(x + "/" + "." + "/" + z) == Clean(x + "/" + "" + "/" + z) == Clean(x + "/" + z)
  {
    CleanOfThree(x, ".", z);
    CleanOfThree(x, "", z);
    var s, t, rooted := Split(x, '/'), Split(z, '/'), x[0] == '/';
    assert Split(".", '/') == ["."] by { SplitWithoutSeparator(".", '/'); }
    forall e | e == "." || e == "" ensures Reduce(s + [e] + t, rooted) == Reduce(s + t, rooted) {
      assert (s + [e])[..|s|] == s;
      ReduceOfConcat(s + [e], t, rooted);
      ReduceOfConcat(s, t, rooted);
    }
  }

  lemma ReduceOfUp(s: seq<string>, e: string, rooted: bool)
    requires Proper(e)
    ensures Reduce(s + [e, ".."], rooted) == Reduce(s, rooted)
  {
    assert (s + [e, ".."])[..|s| + 1] == s + [e] && (s + [e])[..|s|] == s;
    var kept := Reduce(s, rooted);
    assert (kept + [e])[..|kept|] == kept;
    assert Reduce(s + [e], rooted) == kept + [e];
  }

  lemma SplitOfUp(e: string)
    requires Proper(e)
    ensures Split(e + "/" + "..", '/') == [e, ".."]
  {
    SplitAtSeparator(e, '/', "..");
    SplitWithoutSeparator(e, '/');
    SplitWithoutSeparator("..", '/');
  }

  /** An element in front of ".." goes with it. */
  lemma CleanGoesUp(x: string, e: string, z: string)
    requires x != "" && Proper(e)
    ensures Clean(x + "/" + (e + "/" + "..") + "/" + z) == Clean(x + "/" + z)
  {
    CleanOfThree(x, e + "/" + "..", z);
    SplitOfUp(e);
    var s, t, rooted := Split(x, '/'), Split(z, '/'), x[0] == '/';
    ReduceOfUp(s, e, rooted);
    ReduceOfConcat(s + [e, ".."], t, rooted);
    ReduceOfConcat(s, t, rooted);
  }

  /** ".." elements at the root go, and those at the start of a relative path stay. */
  lemma CleanAtTheStart(z: string)
    ensures Clean("/" + ".." + "/" + z) == Clean("/" + z)
    ensures Canonical(z) ==> Clean("../" + z) == "../" + z
  {
    SplitAtSeparator("", '/', "..");
    SplitWithoutSeparator("..", '/');
    SplitAtSeparator("/..", '/', z);
    SplitAtSeparator("", '/', z);
    assert "" + "/" + ".." == "/.." && "" + "/" + z == "/" + z && "/" + ".." + "/" + z == "/.." + "/" + z;
    var t := Split(z, '/');
    assert Split("/..", '/') == ["", ".."];
    assert ["", ".."][..1] == [""] && Reduce(["", ".."], true) == Reduce([""], true) == [];
    ReduceOfConcat(["", ".."], t, true);
    ReduceOfConcat([""], t, true);
    if Canonical(z) {
      SplitAtSeparator("..", '/', z);
      assert ".." + "/" + z == "../" + z;
      assert Reduce([".."], false) == [".."];
      ReduceOfConcat([".."], t, false);
      PushProper([".."], t, false);
      JoinOfSplit("../" + z, '/');
    }
  }

  lemma {:induction false} PushProper(kept: seq<string>, t: seq<string>, rooted: bool)
    requires forall e :: e in t ==> Proper(e)
    ensures PushAll(kept, t, rooted) == kept + t
    decreases |t|
  {
    if t != [] {
      assert Proper(t[0]);
      PushProper(kept + [t[0]], t[1..], rooted);
      assert kept + [t[0]] + t[1..] == kept + t;
    }
  }

  /** Names built from proper elements are canonical. */
  lemma CanonicalNames(d: string, f: string)
    requires Proper(f)
    ensures Canonical(f) && (Canonical(d) ==> Canonical(d + "/" + f))
  {
    SplitWithoutSeparator(f, '/');
    SplitAtSeparator(d, '/', f);
  }

  /** Joining brings in no character but slashes and, for an empty result, a dot. */
  lemma JoinAddsNoSpace(dir: string, name: string)
    requires ' ' !in dir && ' ' !in name
    ensures ' ' !in Join(dir, name)
  {
    CleanAddsNoSpace(dir + "/" + name);
    CleanAddsNoSpace(name);
  }

  lemma CleanAddsNoSpace(p: string)
    requires ' ' !in p
    ensures ' ' !in Clean(p)
  {
    var rooted := p != "" && p[0] == '/';
    SplitPartsAreClean(p, '/');
    ReduceKeepsElements(Split(p, '/'), rooted);
    JoinChars(Reduce(Split(p, '/'), rooted), '/', ' ');
  }

  const DIGITS := "0123456789"

  function Digit(d: nat): char
    requires d < 10
  {
    DIGITS[d]
  }

  function Decimal(n: nat): (s: string)
    ensures s != ""
  {
    if n < 10 then [Digit(n)] else Decimal(n / 10) + [Digit(n % 10)]
  }

  predicate IsDigit(c: char) {
    '0' <= c <= '9'
  }

  function DigitValue(c: char): nat
    requires IsDigit(c)
  {
    (c - '0') as int
  }

  function Unsigned(s: string): nat
    requires forall c :: c in s ==> IsDigit(c)
  {
    if s == "" then 0 else 10 * Unsigned(s[..|s| - 1]) + DigitValue(s[|s| - 1])
  }

  const TWO_TO_THE_63: int := 0x8000_0000_0000_0000

  /** strconv.ParseInt(s, 10, 64): an optional sign, at least one digit, and a 64-bit range. */
  function ParseInt64(s: string): Option<int> {
    var signed := s != "" && (s[0] == '+' || s[0] == '-');
    var digits := if signed then s[1..] else s;
    if digits == "" || exists c :: c in digits && !IsDigit(c) then None
    else
      var value: int := Unsigned(digits);
      if s[0] == '-' then if value > TWO_TO_THE_63 then None else Some(0 - value)
      else if value >= TWO_TO_THE_63 then None else Some(value)
  }

  lemma {:induction false} DecimalIsDigits(n: nat)
    ensures (forall c :: c in Decimal(n) ==> IsDigit(c)) && Unsigned(Decimal(n)) == n
  {
    if n < 10 {
      assert IsDigit(Digit(n)) && DigitValue(Digit(n)) == n;
      assert [Digit(n)][..0] == "";
    } else {
      DecimalIsDigits(n / 10);
      assert IsDigit(Digit(n % 10)) && DigitValue(Digit(n % 10)) == n % 10;
      assert Decimal(n)[..|Decimal(n)| - 1] == Decimal(n / 10);
    }
  }

  /** Printing a label number and parsing it back is the identity on Go's non-negative ints. */
  lemma ParseOfDecimal(n: nat)
    requires n < TWO_TO_THE_63
    ensures ParseInt64(Decimal(n)) == Some(n)
  {
    DecimalIsDigits(n);
    assert Decimal(n)[0] in Decimal(n);
  }

  /** A decimal with a sign, for every value of a 64-bit integer and none beyond. */
  lemma ParseOfSigned(n: nat)
    ensures ParseInt64(Decimal(n)) == ParseInt64("+" + Decimal(n))
         == if n < 0x8000_0000_0000_0000 then Some(n) else None
    ensures ParseInt64("-" + Decimal(n)) == if n <= 0x8000_0000_0000_0000 then Some(0 - n) else None
  {
    DecimalIsDigits(n);
    ParseOfDigits(Decimal(n));
    ParseBehindSign('+', Decimal(n));
    ParseBehindSign('-', Decimal(n));
  }

  lemma ParseOfDigits(digits: string)
    requires digits != "" && forall c :: c in digits ==> IsDigit(c)
    ensures ParseInt64(digits) == if Unsigned(digits) < 0x8000_0000_0000_0000 then Some(Unsigned(digits)) else None
  {
    assert digits[0] in digits;
  }

  lemma ParseBehindSign(sign: char, digits: string)
    requires (sign == '+' || sign == '-') && digits != "" && forall c :: c in digits ==> IsDigit(c)
    ensures ParseInt64([sign] + digits) ==
              var n := Unsigned(digits);
              if sign == '-' then if n <= 0x8000_0000_0000_0000 then Some(0 - n) else None
              else if n < 0x8000_0000_0000_0000 then Some(n) else None
  {
    assert ([sign] + digits)[1..] == digits;
  }

  /** The digits are those of base ten, the highest first. */
  lemma DecimalStep(n: nat, d: nat)
    requires d < 10
    ensures Decimal(10 * n + d) == (if n == 0 then "" else Decimal(n)) + ["0123456789"[d]]
  {
  }

  /** What is not digits behind an optional sign is no number. */
  lemma ParseOfJunk(s: string, i: nat)
    requires i < |s| && !IsDigit(s[i]) && (i == 0 ==> s[0] != '+' && s[0] != '-')
    ensures ParseInt64(s) == None && ParseInt64("") == ParseInt64("+") == ParseInt64("-") == None
  {
    if i > 0 { assert s[1..][i - 1] == s[i] && s[i] in s[1..] && s[i] in s; } else { assert s[0] in s; }
  }

  lemma DecimalHasNoSpace(n: nat)
    ensures ' ' !in Decimal(n)
  {
    DecimalIsDigits(n);
  }
}
