/** Choosing a name for an uploaded file that none of the user's files has yet. */
module FileNames {
  import opened Prelude
  import opened Ordering
  import Decimal

  /** The largest value of the 64-bit integers suffixes are parsed into. */
  const MAX_INT := 0x7FFF_FFFF_FFFF_FFFF

  // ---------------------------------------------------------------- library functions

  function Last(s: string): char
    requires s != []
  {
    s[|s| - 1]
  }

  function Front(s: string): string
    requires s != []
  {
    s[..|s| - 1]
  }

  /** The extension of a path: from the last dot of its last element on. */
  function Ext(path: string): string {
    if path == [] || Last(path) == '/' then []
    else if Last(path) == '.' then "."
    else
      var e := Ext(Front(path));
      if e == [] then [] else e + [Last(path)]
  }

  function TrimSuffix(s: string, suffix: string): string {
    if |suffix| <= |s| && s[|s| - |suffix|..] == suffix then s[..|s| - |suffix|] else s
  }

  predicate IsSpace(c: char) {
    c == '\t' || c == '\n' || c == '\U{0C}' || c == '\r' || c == ' '
  }

  /** What the pattern for numbered names captures: text without newlines, a space character, digits in parentheses. */
  ghost predicate Numbered(s: string, text: string, digits: string) {
    && '\n' !in text
    && digits != [] && Decimal.AllDigits(digits)
    && exists space :: IsSpace(space) && s == text + [space] + "(" + digits + ")"
  }

  /** How many digits a text ends with. */
  function TrailingDigits(s: string): (n: nat)
    ensures n <= |s|
  {
    if s == [] || !Decimal.IsDigit(Last(s)) then 0 else TrailingDigits(Front(s)) + 1
  }

  lemma {:induction false} TrailingDigitsShape(s: string)
    ensures forall i :: |s| - TrailingDigits(s) <= i < |s| ==> Decimal.IsDigit(s[i])
    ensures TrailingDigits(s) < |s| ==> !Decimal.IsDigit(s[|s| - TrailingDigits(s) - 1])
  {
    if s != [] && Decimal.IsDigit(Last(s)) {
      TrailingDigitsShape(Front(s));
    }
  }

  /** Matching the pattern, scanning from the end. */
  function MatchNumbered(s: string): Option<(string, string)> {
    if s == [] || Last(s) != ')' then None
    else
      var inner := Front(s);
      var n := TrailingDigits(inner);
      var k := |inner| - n;
      if n == 0 || k < 2 || inner[k - 1] != '(' || !IsSpace(inner[k - 2]) || '\n' in inner[..k - 2] then None
      else Some((inner[..k - 2], inner[k..]))
  }

  /** Reads an unsigned number; fails on anything else and on overflow. */
  function Atoi(digits: string): Option<int> {
    if digits != [] && Decimal.AllDigits(digits) && Decimal.Parse(digits) <= MAX_INT
    then Some(Decimal.Parse(digits)) else None
  }

  // ---------------------------------------------------------------- the specification

  function Base(filename: string): string {
    TrimSuffix(filename, Ext(filename))
  }

  /** The suffix number an existing file takes up for a base name; 0 for the bare name. */
  function TakenSuffix(existing: string, base: string, ext: string): Option<int> {
    if Ext(existing) != ext then None
    else
      var existingBase := TrimSuffix(existing, ext);
      match MatchNumbered(existingBase)
      case Some(groups) => if groups.0 == base then Atoi(groups.1) else None
      case None => if existingBase == base then Some(0) else None
  }

  function Taken(existing: string, base: string, ext: string): set<int> {
    var taken := TakenSuffix(existing, base, ext);
    if taken.Some? then {taken.value} else {}
  }

  function Used(all: seq<string>, base: string, ext: string): set<int> {
    if all == [] then {} else Used(all[..|all| - 1], base, ext) + Taken(all[|all| - 1], base, ext)
  }

  function NumberedName(base: string, n: nat, ext: string): string {
    base + " (" + Decimal.Print(n) + ")" + ext
  }

  /** n is the least positive number outside a set. */
  ghost predicate LeastFree(used: set<int>, n: int) {
    n >= 1 && n !in used && forall m :: 1 <= m < n ==> m in used
  }

  /** The name chosen for a new file. */
  ghost predicate ChosenName(filename: string, all: seq<string>, r: string) {
    if filename !in all then r == filename
    else exists n: nat :: LeastFree(Used(all, Base(filename), Ext(filename)), n)
                       && r == NumberedName(Base(filename), n, Ext(filename))
  }

  // ---------------------------------------------------------------- the algorithm

  method GenerateUniqueFilename(filename: string, all: seq<string>) returns (r: string)
    ensures ChosenName(filename, all, r)
  {
    hide *;
    var ext := Ext(filename);
    var base := TrimSuffix(filename, ext);

    var exactMatch := false;
    for i := 0 to |all|
      invariant !exactMatch
      invariant filename !in all[..i]
    {
      if all[i] == filename {
        exactMatch := true;
        break;
      }
    }
    if !exactMatch {
      FreeNameIsChosen(filename, all);
      return filename;
    }

    var used := CollectSuffixes(all, base, ext);
    var suffixes := SortedSuffixes(used);
    var next := NextSuffix(suffixes, used);
    NameIsChosen(filename, all, base, ext, used, next);
    return NumberedName(base, next, ext);
  }

  lemma FreeNameIsChosen(filename: string, all: seq<string>)
    requires filename !in all
    ensures ChosenName(filename, all, filename)
  {
  }

  lemma NameIsChosen(filename: string, all: seq<string>, base: string, ext: string, used: set<int>, n: nat)
    requires filename in all && ext == Ext(filename) && base == TrimSuffix(filename, ext)
    requires used == Used(all, base, ext) && LeastFree(used, n)
    ensures ChosenName(filename, all, NumberedName(base, n, ext))
  {
    hide Ext, TrimSuffix, Used, LeastFree, NumberedName;
    assert base == Base(filename);
    assert LeastFree(Used(all, Base(filename), Ext(filename)), n);
  }

  /** The first loop after a conflict: which numbers the existing files take up. */
  method CollectSuffixes(all: seq<string>, base: string, ext: string) returns (used: set<int>)
    ensures used == Used(all, base, ext)
  {
    hide Ext, TrimSuffix, MatchNumbered, Used;
    used := {};
    NoFileTakes(base, ext);
    for i := 0 to |all|
      invariant used == Used(all[..i], base, ext)
    {
      UsedStep(all, i, base, ext);
      if Ext(all[i]) != ext {
        continue;
      }
      var existingBase := TrimSuffix(all[i], ext);
      var groups := MatchNumbered(existingBase);
      if groups.Some? {
        if groups.value.0 == base {
          var num := Atoi(groups.value.1);
          if num.Some? {
            used := used + {num.value};
          }
        }
      } else if existingBase == base {
        used := used + {0};
      }
    }
    assert all[..|all|] == all;
  }

  /** The last loop: the least positive number not among the sorted ones. */
  method NextSuffix(suffixes: seq<int>, used: set<int>) returns (next: nat)
    requires forall i, j :: 0 <= i < j < |suffixes| ==> suffixes[i] < suffixes[j]
    requires forall x :: x in suffixes <==> x in used
    ensures LeastFree(used, next)
  {
    next := 1;
    for i := 0 to |suffixes|
      invariant next >= 1 && next !in suffixes[..i]
      invariant forall m :: 1 <= m < next ==> m in used
    {
      if suffixes[i] == next {
        assert next in suffixes;
        next := next + 1;
      }
    }
    assert suffixes[..|suffixes|] == suffixes;
  }

  lemma NoFileTakes(base: string, ext: string)
    ensures Used([], base, ext) == {}
  {
  }

  lemma UsedStep(all: seq<string>, i: nat, base: string, ext: string)
    requires i < |all|
    ensures Used(all[..i + 1], base, ext) == Used(all[..i], base, ext) + Taken(all[i], base, ext)
  {
    assert all[..i + 1][..i] == all[..i];
  }

  /** Collects the keys of the set in any order and sorts them. */
  method SortedSuffixes(used: set<int>) returns (r: seq<int>)
    ensures forall i, j :: 0 <= i < j < |r| ==> r[i] < r[j]
    ensures forall x :: x in r <==> x in used
  {
    var rest: set<int> := used;
    var keys: seq<int> := [];
    while rest != {}
      invariant rest <= used
      invariant forall x :: x in keys <==> x in used - rest
      invariant forall i, j :: 0 <= i < j < |keys| ==> keys[i] != keys[j]
      decreases rest
    {
      HasElement(rest);
      var k: int :| k in rest;
      keys := keys + [k];
      rest := rest - {k};
    }
    r := OrderAsc(keys, IntKey);
    SortedInts(keys);
  }

  function IntKey(n: int): Key {
    (n, 0)
  }

  lemma SortedInts(keys: seq<int>)
    requires forall i, j :: 0 <= i < j < |keys| ==> keys[i] != keys[j]
    ensures forall i, j :: 0 <= i < j < |OrderAsc(keys, IntKey)| ==>
      OrderAsc(keys, IntKey)[i] < OrderAsc(keys, IntKey)[j]
    ensures forall x :: x in OrderAsc(keys, IntKey) <==> x in keys
  {
    var key: int -> Key := IntKey;
    assert forall n :: key(n) == (n, 0) && Negate(key)(n) == (-key(n).0, -key(n).1);
    assert DistinctKeys(keys, Negate(key));
    OrderDescSorts(keys, Negate(key));
    var r := OrderAsc(keys, IntKey);
    forall i, j | 0 <= i < j < |r| ensures r[i] < r[j] {
      assert Less(Negate(key)(r[j]), Negate(key)(r[i]));
    }
  }

  // ---------------------------------------------------------------- taking names apart

  ghost predicate Plain(s: string) {
    '.' !in s && '/' !in s
  }

  lemma {:induction false} ExtOfAppend(path: string, s: string)
    requires Plain(s)
    ensures Ext(path + s) == if Ext(path) == [] then [] else Ext(path) + s
  {
    if s == [] {
      assert path + s == path;
    } else {
      assert Front(path + s) == path + Front(s);
      assert s == Front(s) + [Last(s)];
      ExtOfAppend(path, Front(s));
    }
  }

  lemma {:induction false} ExtIsSuffix(path: string)
    ensures Ext(path) != [] ==> Ext(path)[0] == '.' && Plain(Ext(path)[1..])
    ensures |Ext(path)| <= |path| && path[|path| - |Ext(path)|..] == Ext(path)
  {
    if path != [] && Last(path) != '/' && Last(path) != '.' {
      ExtIsSuffix(Front(path));
      var e := Ext(Front(path));
      if e != [] {
        assert (e + [Last(path)])[1..] == e[1..] + [Last(path)];
        assert path == Front(path) + [Last(path)];
      }
    }
  }

  /** A name is its base followed by its extension, and any base takes the extension over. */
  lemma SplitName(filename: string)
    ensures Base(filename) + Ext(filename) == filename
  {
  }

  lemma NumberedParts(filename: string, n: nat)
    ensures Ext(NumberedName(Base(filename), n, Ext(filename))) == Ext(filename)
    ensures TrimSuffix(NumberedName(Base(filename), n, Ext(filename)), Ext(filename))
            == Base(filename) + " (" + Decimal.Print(n) + ")"
  {
    var base, ext := Base(filename), Ext(filename);
    var stem := " (" + Decimal.Print(n) + ")";
    Decimal.ParsePrint(n);
    hide Ext;
    ExtIsSuffix(filename);
    SplitName(filename);
    if ext == [] {
      assert base == filename;
      assert NumberedName(base, n, ext) == filename + stem;
      ExtOfAppend(filename, stem);
    } else {
      var path := base + stem;
      assert NumberedName(base, n, ext) == (path + ".") + ext[1..];
      assert Ext(path + ".") == "." by { DotExt(path); }
      ExtOfAppend(path + ".", ext[1..]);
    }
  }

  lemma DotExt(path: string)
    ensures Ext(path + ".") == "."
  {
  }

  lemma TrailingDigitsOf(front: string, digits: string)
    requires Decimal.AllDigits(digits) && front != [] && !Decimal.IsDigit(Last(front))
    ensures TrailingDigits(front + digits) == |digits|
  {
    var s := front + digits;
    TrailingDigitsShape(s);
    hide TrailingDigits;
    assert s[|front| - 1] == Last(front);
    assert forall i :: |front| <= i < |s| ==> s[i] == digits[i - |front|];
  }

  lemma PatternMatches(s: string, text: string, digits: string)
    requires Numbered(s, text, digits)
    ensures MatchNumbered(s) == Some((text, digits))
  {
    var space :| IsSpace(space) && s == text + [space] + "(" + digits + ")";
    var front, inner := text + [space] + "(", Front(s);
    TrailingDigitsOf(front, digits);
    hide TrailingDigits, Decimal.AllDigits;
    assert Last(s) == ')';
    assert inner == front + digits;
    assert inner[..|text|] == text && inner[|front|..] == digits;
    assert inner[|front| - 1] == '(' && inner[|front| - 2] == space;
  }

  lemma MatchesPattern(s: string, text: string, digits: string)
    requires MatchNumbered(s) == Some((text, digits))
    ensures Numbered(s, text, digits)
  {
    var inner := Front(s);
    TrailingDigitsShape(inner);
    hide TrailingDigits;
    var k := |inner| - TrailingDigits(inner);
    assert s == text + [inner[k - 2]] + "(" + digits + ")";
  }

  /** The scan from the end finds exactly the decomposition the pattern describes, which is unique. */
  lemma MatchIsPattern(s: string, text: string, digits: string)
    ensures MatchNumbered(s) == Some((text, digits)) <==> Numbered(s, text, digits)
  {
    hide MatchNumbered, Numbered;
    if Numbered(s, text, digits) {
      PatternMatches(s, text, digits);
    }
    if MatchNumbered(s) == Some((text, digits)) {
      MatchesPattern(s, text, digits);
    }
  }

  // ---------------------------------------------------------------- freshness

  lemma {:induction false} UsedIsTaken(all: seq<string>, base: string, ext: string)
    ensures forall m :: m in Used(all, base, ext) <==> exists e :: e in all && TakenSuffix(e, base, ext) == Some(m)
  {
    if all != [] {
      var front, e := all[..|all| - 1], all[|all| - 1];
      assert all == front + [e];
      UsedIsTaken(front, base, ext);
      forall m ensures m in Used(all, base, ext) <==> exists e :: e in all && TakenSuffix(e, base, ext) == Some(m) {
        if m in Used(all, base, ext) && m !in Used(front, base, ext) {
          assert e in all && TakenSuffix(e, base, ext) == Some(m);
        }
      }
    }
  }

  /** A numbered name takes its own number up, unless its base has a line break. */
  lemma NumberedTakes(filename: string, n: nat)
    requires n <= MAX_INT && '\n' !in Base(filename)
    ensures TakenSuffix(NumberedName(Base(filename), n, Ext(filename)), Base(filename), Ext(filename)) == Some(n)
  {
    var base, ext := Base(filename), Ext(filename);
    NumberedParts(filename, n);
    Decimal.ParsePrint(n);
    hide Ext, NumberedName, MatchNumbered;
    var stem := base + " (" + Decimal.Print(n) + ")";
    assert stem == base + [' '] + "(" + Decimal.Print(n) + ")";
    MatchIsPattern(stem, base, Decimal.Print(n));
  }

  /** The base, a space character, the digits of a positive number in parentheses, and the extension. */
  ghost predicate NumberedFile(existing: string, base: string, space: char, digits: string, m: int, ext: string) {
    && (space == ' ' || space == '\t' || space == '\n' || space == '\r' || space == '\U{0C}')
    && digits != [] && Decimal.AllDigits(digits) && Decimal.Parse(digits) == m && 0 < m <= 0x7FFF_FFFF_FFFF_FFFF
    && existing == base + [space] + "(" + digits + ")" + ext
  }

  /** A file takes a positive number exactly when its name is the numbered base without line break and the extension. */
  lemma TakenIff(existing: string, filename: string, m: int)
    requires m > 0
    ensures TakenSuffix(existing, Base(filename), Ext(filename)) == Some(m) <==>
      && '\n' !in Base(filename) && Ext(existing) == Ext(filename)
      && exists space, digits :: NumberedFile(existing, Base(filename), space, digits, m, Ext(filename))
  {
    var base, ext := Base(filename), Ext(filename);
    SplitName(existing);
    hide MatchNumbered, Ext, Decimal.AllDigits, Decimal.Parse;
    if TakenSuffix(existing, base, ext) == Some(m) {
      var stem := TrimSuffix(existing, ext);
      var digits := MatchNumbered(stem).value.1;
      MatchIsPattern(stem, base, digits);
      var space :| IsSpace(space) && stem == base + [space] + "(" + digits + ")";
      assert existing == base + [space] + "(" + digits + ")" + ext;
      assert NumberedFile(existing, base, space, digits, m, ext);
    }
    if '\n' !in base && Ext(existing) == ext
       && exists space, digits :: NumberedFile(existing, base, space, digits, m, ext) {
      var space, digits :| NumberedFile(existing, base, space, digits, m, ext);
      var stem := base + [space] + "(" + digits + ")";
      assert existing == stem + ext && TrimSuffix(existing, ext) == stem;
      assert Numbered(stem, base, digits);
      MatchIsPattern(stem, base, digits);
    }
  }

  /** Every number taken up is that of a numbered name without line breaks in the base, or 0. */
  lemma TakenMeans(existing: string, base: string, ext: string, m: int)
    requires TakenSuffix(existing, base, ext) == Some(m)
    ensures 0 <= m <= MAX_INT
    ensures m != 0 ==> '\n' !in base && |base| < |TrimSuffix(existing, ext)|
  {
  }

  /** Each file takes up at most one number, and the conflicting one takes no positive number. */
  lemma {:induction false} UsedCount(all: seq<string>, filename: string, base: string, ext: string)
    requires base == Base(filename) && ext == Ext(filename)
    ensures |Used(all, base, ext) - {0}| + (if filename in all then 1 else 0) <= |all|
  {
    if all == [] {
      NoFileTakes(base, ext);
    } else {
      var front, e := all[..|all| - 1], all[|all| - 1];
      assert Used(all, base, ext) == Used(front, base, ext) + Taken(e, base, ext);
      assert filename in all <==> filename in front || filename == e by {
        assert all == front + [e];
      }
      hide *;
      UsedCount(front, filename, base, ext);
      OwnNameTakesNone(filename, base, ext);
      OneMore(Used(front, base, ext), e, base, ext);
    }
  }

  lemma OneMore(before: set<int>, e: string, base: string, ext: string)
    ensures |before + Taken(e, base, ext) - {0}| <= |before - {0}| + |Taken(e, base, ext) - {0}|
    ensures |Taken(e, base, ext) - {0}| <= 1
  {
  }

  lemma OwnNameTakesNone(filename: string, base: string, ext: string)
    requires base == Base(filename) && ext == Ext(filename)
    ensures |Taken(filename, base, ext) - {0}| == 0
  {
  }

  function Positives(n: nat): set<int> {
    if n == 0 then {} else Positives(n - 1) + {n}
  }

  lemma {:induction false} CountPositives(n: nat)
    ensures |Positives(n)| == n
    ensures forall m :: m in Positives(n) <==> 1 <= m <= n
  {
    if n > 0 {
      CountPositives(n - 1);
    }
  }

  lemma SubsetCount(a: set<int>, b: set<int>)
    requires a <= b
    ensures |a| <= |b|
  {
    assert b == a + (b - a);
  }

  /** On a conflict the suffix is at most the number of files: numbering never runs ahead of the list. */
  lemma SuffixWithinCount(filename: string, all: seq<string>, n: nat)
    requires filename in all && LeastFree(Used(all, Base(filename), Ext(filename)), n)
    ensures n <= |all|
  {
    UsedCount(all, filename, Base(filename), Ext(filename));
    hide Used, Base, Ext;
    BelowLeastFree(Used(all, Base(filename), Ext(filename)), n);
  }

  /** Below the least free number everything positive is used. */
  lemma BelowLeastFree(used: set<int>, n: nat)
    requires LeastFree(used, n)
    ensures n - 1 <= |used - {0}|
  {
    CountPositives(n - 1);
    hide Positives;
    forall m | m in Positives(n - 1) ensures m in used {
    }
    SubsetCount(Positives(n - 1), used - {0});
  }

  /** Whether the chosen name clashes: only a line break in the base can make it, and then exactly when "(1)" exists. */
  lemma ChosenClashes(filename: string, all: seq<string>, r: string)
    requires ChosenName(filename, all, r) && |all| <= MAX_INT
    ensures r in all <==>
      filename in all && '\n' in Base(filename) && NumberedName(Base(filename), 1, Ext(filename)) in all
  {
    var base, ext := Base(filename), Ext(filename);
    if filename in all {
      var used := Used(all, base, ext);
      hide Used, NumberedName, TakenSuffix, Base, Ext;
      var n: nat :| LeastFree(used, n) && r == NumberedName(base, n, ext);
      UsedIsTaken(all, base, ext);
      if '\n' in base {
        if 1 in used {
          var e :| e in all && TakenSuffix(e, base, ext) == Some(1);
          TakenMeans(e, base, ext, 1);
        }
        assert n == 1;
      } else {
        SuffixWithinCount(filename, all, n);
        NumberedTakes(filename, n);
      }
    }
  }

  /** Freshness holds for a file name over all lists exactly when its base has no line break. */
  lemma FreshIffNoLineBreak(filename: string)
    ensures '\n' !in Base(filename) <==>
      forall all, r :: |all| <= MAX_INT && ChosenName(filename, all, r) ==> r !in all
  {
    hide ChosenName;
    if '\n' !in Base(filename) {
      forall all, r | |all| <= MAX_INT && ChosenName(filename, all, r) ensures r !in all {
        ChosenClashes(filename, all, r);
      }
    } else {
      var r := NumberedName(Base(filename), 1, Ext(filename));
      var all := [filename, r];
      ClashingChoice(filename, all, r);
      assert r in all;
    }
  }

  lemma ClashingChoice(filename: string, all: seq<string>, r: string)
    requires '\n' in Base(filename) && filename in all && r == NumberedName(Base(filename), 1, Ext(filename))
    ensures ChosenName(filename, all, r)
  {
    var base, ext := Base(filename), Ext(filename);
    var used := Used(all, base, ext);
    UsedIsTaken(all, base, ext);
    hide Used, NumberedName, TakenSuffix, Base, Ext;
    if 1 in used {
      var e :| e in all && TakenSuffix(e, base, ext) == Some(1);
      TakenMeans(e, base, ext, 1);
    }
    assert LeastFree(used, 1);
  }

  // ---------------------------------------------------------------- runs of uploads

  /** One upload: the file is stored under the chosen name, or the transaction fails and nothing is. */
  ghost predicate Upload(before: seq<string>, filename: string, after: seq<string>) {
    after == before || exists r :: ChosenName(filename, before, r) && after == before + [r]
  }

  ghost predicate Distinct(names: seq<string>) {
    forall i, j :: 0 <= i < j < |names| ==> names[i] != names[j]
  }

  lemma UploadKeepsDistinct(before: seq<string>, filename: string, after: seq<string>)
    requires Distinct(before) && |before| <= MAX_INT
    requires '\n' !in Base(filename) && Upload(before, filename, after)
    ensures Distinct(after)
  {
    hide ChosenName, Base;
    if after != before {
      var r :| ChosenName(filename, before, r) && after == before + [r];
      ChosenClashes(filename, before, r);
    }
  }

  /** Over any run of uploads one after the other, failed ones included, a user's file names stay pairwise distinct. */
  lemma {:induction false} NamesStayDistinct(states: seq<seq<string>>, uploads: seq<string>)
    requires |states| == |uploads| + 1 && Distinct(states[0])
    requires forall i :: 0 <= i < |uploads| ==>
      '\n' !in Base(uploads[i]) && |states[i]| <= MAX_INT && Upload(states[i], uploads[i], states[i + 1])
    ensures Distinct(states[|uploads|])
  {
    hide Upload, Base, Distinct;
    if uploads != [] {
      UploadKeepsDistinct(states[0], uploads[0], states[1]);
      NamesStayDistinct(states[1..], uploads[1..]);
    }
  }
}
