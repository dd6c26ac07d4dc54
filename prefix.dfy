/**
 * The prefix allocator of `workdir new`: it scans the children of the output
 * directory for names that start with a run of digits and an underscore, and
 * proposes the next number, zero-padded, for the directory about to be made.
 */
module Prefix {
  import opened Wrappers
  import opened Text

  /** One child of the scanned directory: its name and whether it is a directory. */
  datatype Entry = Entry(name: string, isDir: bool)

  /** The longest run of ASCII digits at the start of `s`. */
  function LeadingDigits(s: string): (d: string)
    ensures |d| <= |s| && d == s[..|d|] && AllDigits(d)
    ensures |d| < |s| ==> !IsDigit(s[|d|])
    decreases |s|
  {
    if s != [] && IsDigit(s[0]) then [s[0]] + LeadingDigits(s[1..]) else []
  }

  /**
   * The group `(\d+)` of the pattern `^(\d+)_` matched against `name`, when it
   * matches. The pattern matches exactly when some non-empty digit run at the
   * start of `name` is followed by `_`, and that run is the group.
   */
  function PrefixDigits(name: string): (r: Option<string>)
    ensures r.Some? ==> && 0 < |r.value| < |name| && AllDigits(r.value)
                        && name[..|r.value|] == r.value && name[|r.value|] == '_'
    ensures r.None? <==> forall k :: 0 < k < |name| && name[k] == '_' ==> !AllDigits(name[..k])
  {
    var d := LeadingDigits(name);
    if 0 < |d| < |name| && name[|d|] == '_' then Some(d)
    else
      assert forall k :: 0 < k < |name| && name[k] == '_' ==> !AllDigits(name[..k]) by {
        forall k | 0 < k < |name| && name[k] == '_' && AllDigits(name[..k])
          ensures false
        {
        }
      }
      None
  }

  /** The number an entry's prefix denotes, -1 when it is not a directory or does not match. */
  function MatchedValue(e: Entry): int {
    if !e.isDir then -1
    else match PrefixDigits(e.name)
      case Some(d) => DigitsValue(d)
      case None => -1
  }

  /** The width of an entry's digit run, 0 when it is not a directory or does not match. */
  function MatchedWidth(e: Entry): nat {
    if !e.isDir then 0
    else match PrefixDigits(e.name)
      case Some(d) => |d|
      case None => 0
  }

  function Max(a: int, b: int): int {
    if a < b then b else a
  }

  /** The largest prefix number among the first entries scanned, -1 when none matched. */
  function MaxNum(entries: seq<Entry>): (m: int)
    ensures m >= -1
    decreases |entries|
  {
    if entries == [] then -1
    else Max(MaxNum(entries[..|entries| - 1]), MatchedValue(entries[|entries| - 1]))
  }

  /** The widest digit run among the first entries scanned, never less than 2. */
  function MaxWidth(entries: seq<Entry>): (w: nat)
    ensures w >= 2
    decreases |entries|
  {
    if entries == [] then 2
    else Max(MaxWidth(entries[..|entries| - 1]), MatchedWidth(entries[|entries| - 1]))
  }

  /**
   * The prefix proposed for a directory whose children are `entries`: empty
   * when no child directory carries a numeric prefix, otherwise the successor
   * of the largest prefix number, zero-padded to the widest prefix seen (at
   * least two digits), followed by `_`.
   */
  function NextPrefix(entries: seq<Entry>): string {
    Proposal(MaxNum(entries), MaxWidth(entries))
  }

  /** The final step of the scan: nothing found, or the successor of `maxNum` zero-filled to `width`, then `_`. */
  function Proposal(maxNum: int, width: nat): string
    requires maxNum >= -1
  {
    if maxNum == -1 then "" else ZFill(DecimalString(maxNum + 1), width) + "_"
  }

  /**
   * `_get_next_prefix_from_directory`: one pass over the directory listing with
   * two accumulators, the largest number and the widest digit run.
   */
  method NextPrefixFromDirectory(entries: seq<Entry>) returns (prefix: string)
    ensures prefix == NextPrefix(entries)
  {
    var maxNum: int := -1;
    var prefixLen := 2;
    for i := 0 to |entries|
      invariant maxNum == MaxNum(entries[..i])
      invariant prefixLen == MaxWidth(entries[..i])
    {
      assert entries[..i + 1][..i] == entries[..i];
      var entry := entries[i];
      if !entry.isDir {
        continue;
      }
      var m := PrefixDigits(entry.name);
      if m.Some? {
        var digits := m.value;
        var num := DigitsValue(digits);
        var numLen := |digits|;
        if numLen > prefixLen {
          prefixLen := numLen;
        }
        if num > maxNum {
          maxNum := num;
        }
      }
    }
    assert entries[..|entries|] == entries;
    if maxNum == -1 {
      prefix := "";
    } else {
      prefix := ZFill(DecimalString(maxNum + 1), prefixLen) + "_";
    }
  }

  // ---------------------------------------------------------------------
  // What the allocator promises
  // ---------------------------------------------------------------------

  /** `MaxNum` is the largest matched number: every match is at most it, and it is -1 or attained. */
  lemma {:induction false} MaxNumIsMaximum(entries: seq<Entry>)
    ensures forall e :: e in entries ==> MatchedValue(e) <= MaxNum(entries)
    ensures MaxNum(entries) == -1 || exists e :: e in entries && MatchedValue(e) == MaxNum(entries)
    decreases |entries|
  {
    if entries != [] {
      var init := entries[..|entries| - 1];
      MaxNumIsMaximum(init);
      assert entries == init + [entries[|entries| - 1]];
    }
  }

  /** `MaxWidth` is the widest matched run or 2: every match is at most it, and it is 2 or attained. */
  lemma {:induction false} MaxWidthIsMaximum(entries: seq<Entry>)
    ensures forall e :: e in entries ==> MatchedWidth(e) <= MaxWidth(entries)
    ensures MaxWidth(entries) == 2 || exists e :: e in entries && MatchedWidth(e) == MaxWidth(entries)
    decreases |entries|
  {
    if entries != [] {
      var init := entries[..|entries| - 1];
      MaxWidthIsMaximum(init);
      assert entries == init + [entries[|entries| - 1]];
    }
  }

  /**
   * The result is empty exactly when no child directory's name matches
   * `^\d+_`; otherwise it ends with `_`.
   */
  lemma EmptyExactlyWhenNoMatch(entries: seq<Entry>)
    ensures NextPrefix(entries) == "" <==>
            forall e :: e in entries && e.isDir ==> PrefixDigits(e.name).None?
    ensures NextPrefix(entries) != "" ==> NextPrefix(entries)[|NextPrefix(entries)| - 1] == '_'
  {
    MaxNumIsMaximum(entries);
  }

  /**
   * A non-empty result is a digit run followed by `_`; the run reads as one
   * more than every existing prefix number, so a directory named with it
   * sorts after all the others; it is as wide as the widest existing run and
   * at least two digits, and it is never cut to that width.
   */
  lemma NextPrefixIsSuccessor(entries: seq<Entry>)
    requires NextPrefix(entries) != ""
    ensures var p := NextPrefix(entries); var digits := p[..|p| - 1];
      && p == digits + "_"
      && AllDigits(digits)
      && DigitsValue(digits) == MaxNum(entries) + 1
      && (forall e :: e in entries ==> MatchedValue(e) < DigitsValue(digits))
      && |digits| >= 2
      && (forall e :: e in entries ==> MatchedWidth(e) <= |digits|)
      && |digits| >= |DecimalString(DigitsValue(digits))|
      && |digits| == Max(MaxWidth(entries), |DecimalString(MaxNum(entries) + 1)|)
  {
    var m, w := MaxNum(entries), MaxWidth(entries);
    var z := ZFill(DecimalString(m + 1), w);
    var p := NextPrefix(entries);
    assert p == z + "_";
    assert p[..|p| - 1] == z;
    assert AllDigits(z) && DigitsValue(z) == m + 1 by {
      ZFillDecimalValue(m + 1, w);
    }
    assert forall e :: e in entries ==> MatchedValue(e) <= m && MatchedWidth(e) <= w by {
      MaxNumIsMaximum(entries);
      MaxWidthIsMaximum(entries);
    }
  }

  /** A name that is a digit run, `_` and anything else matches, with that run as the group. */
  lemma {:induction false} PrefixDigitsOfName(digits: string, rest: string)
    requires |digits| > 0 && AllDigits(digits)
    ensures PrefixDigits(digits + "_" + rest) == Some(digits)
  {
    var name := digits + "_" + rest;
    assert name == digits + ("_" + rest);
    LeadingDigitsOf(digits, "_" + rest);
    assert name[|digits|] == '_';
  }

  lemma {:induction false} LeadingDigitsOf(digits: string, rest: string)
    requires AllDigits(digits) && (rest == [] || !IsDigit(rest[0]))
    ensures LeadingDigits(digits + rest) == digits
    decreases |digits|
  {
    if digits != [] {
      assert (digits + rest)[1..] == digits[1..] + rest;
      LeadingDigitsOf(digits[1..], rest);
    }
  }

  /** A directory created with the proposed prefix is itself recognised, with the new number. */
  lemma NewDirectoryMatches(entries: seq<Entry>, rest: string)
    requires NextPrefix(entries) != ""
    ensures var p := NextPrefix(entries);
      && PrefixDigits(p + rest) == Some(p[..|p| - 1])
      && MatchedValue(Entry(p + rest, true)) == MaxNum(entries) + 1
  {
    NextPrefixIsSuccessor(entries);
    var p := NextPrefix(entries);
    var digits := p[..|p| - 1];
    assert p + rest == digits + "_" + rest;
    PrefixDigitsOfName(digits, rest);
  }

  /** The prefix depends only on which entries are listed, not on the listing order. */
  lemma OrderIndependent(a: seq<Entry>, b: seq<Entry>)
    requires forall e :: e in a <==> e in b
    ensures NextPrefix(a) == NextPrefix(b)
  {
    assert MaxNum(a) == MaxNum(b) && MaxWidth(a) == MaxWidth(b) by {
      SameMaxima(a, b);
      SameMaxima(b, a);
    }
  }

  /** Everything `a` lists is listed by `b`, so `b`'s maxima are at least `a`'s. */
  lemma SameMaxima(a: seq<Entry>, b: seq<Entry>)
    requires forall e :: e in a ==> e in b
    ensures MaxNum(a) <= MaxNum(b) && MaxWidth(a) <= MaxWidth(b)
  {
    MaxNumIsMaximum(a);
    MaxNumIsMaximum(b);
    MaxWidthIsMaximum(a);
    MaxWidthIsMaximum(b);
  }

  /** The directories among `entries`, in listing order. */
  function Directories(entries: seq<Entry>): (dirs: seq<Entry>)
    ensures forall e :: e in dirs <==> e in entries && e.isDir
    decreases |entries|
  {
    if entries == [] then []
    else
      var last := entries[|entries| - 1];
      var init := Directories(entries[..|entries| - 1]);
      assert forall e :: e in entries <==> e in entries[..|entries| - 1] || e == last;
      if last.isDir then init + [last] else init
  }

  /** Entries that are not directories never influence the result. */
  lemma NonDirectoriesIgnored(entries: seq<Entry>)
    ensures NextPrefix(entries) == NextPrefix(Directories(entries))
  {
    var dirs := Directories(entries);
    assert MaxNum(entries) == MaxNum(dirs) && MaxWidth(entries) == MaxWidth(dirs) by {
      SameMaxima(dirs, entries);
      assert MaxNum(entries) <= MaxNum(dirs) by {
        MaxNumIsMaximum(entries);
        MaxNumIsMaximum(dirs);
        if MaxNum(entries) != -1 {
          var e :| e in entries && MatchedValue(e) == MaxNum(entries);
          assert e.isDir;
        }
      }
      assert MaxWidth(entries) <= MaxWidth(dirs) by {
        MaxWidthIsMaximum(entries);
        MaxWidthIsMaximum(dirs);
        if MaxWidth(entries) != 2 {
          var e :| e in entries && MatchedWidth(e) == MaxWidth(entries);
          assert e.isDir;
        }
      }
    }
  }

  // ---------------------------------------------------------------------
  // Worked examples
  // ---------------------------------------------------------------------

  /** The accumulators after scanning a listing of two entries. */
  lemma ScanTwo(e0: Entry, e1: Entry)
    ensures MaxNum([e0, e1]) == Max(Max(-1, MatchedValue(e0)), MatchedValue(e1))
    ensures MaxWidth([e0, e1]) == Max(Max(2, MatchedWidth(e0)), MatchedWidth(e1))
  {
    assert [e0, e1][..1] == [e0];
    assert [e0][..0] == [];
    assert MaxNum([e0]) == Max(-1, MatchedValue(e0));
    assert MaxWidth([e0]) == Max(2, MatchedWidth(e0));
  }

  /** A directory named by a digit run, `_` and anything else counts with that run's value and width. */
  lemma MatchedDirectory(digits: string, rest: string)
    requires |digits| > 0 && AllDigits(digits)
    ensures MatchedValue(Entry(digits + "_" + rest, true)) == DigitsValue(digits)
    ensures MatchedWidth(Entry(digits + "_" + rest, true)) == |digits|
  {
    PrefixDigitsOfName(digits, rest);
  }

  /** The final formatting step after `02_`: the successor is zero-filled to two digits. */
  lemma PaddedToTwo()
    ensures Proposal(2, 2) == "03_"
  {
    assert DecimalString(3) == "3";
  }

  /** The final formatting step after `123_`: three digits, already as wide as the widest run. */
  lemma PaddedToWidest()
    ensures Proposal(123, 3) == "124_"
  {
    assert DecimalString(124) == "124";
  }

  /** The final formatting step after `99_`: the successor is wider than the width and kept whole. */
  lemma GrowsPastWidth()
    ensures Proposal(99, 2) == "100_"
  {
    assert DecimalString(10) == "10";
    assert DecimalString(100) == DecimalString(10) + ['0'];
  }

  /** Directories `01_…` and `02_…` give `03_`. */
  lemma ExampleSequential(a: string, b: string)
    ensures NextPrefix([Entry("01_" + a, true), Entry("02_" + b, true)]) == "03_"
  {
    var e0, e1 := Entry("01_" + a, true), Entry("02_" + b, true);
    assert MaxNum([e0, e1]) == 2 && MaxWidth([e0, e1]) == 2 by {
      assert MatchedValue(e0) == 1 && MatchedWidth(e0) == 2 by {
        assert "01" + "_" == "01_";
        MatchedDirectory("01", a);
        assert "01"[..1] == "0";
      }
      assert MatchedValue(e1) == 2 && MatchedWidth(e1) == 2 by {
        assert "02" + "_" == "02_";
        MatchedDirectory("02", b);
        assert "02"[..1] == "0";
      }
      ScanTwo(e0, e1);
    }
    PaddedToTwo();
  }

  /** Directories `123_…` and `04_…` give `124_`: the width follows the widest run. */
  lemma ExampleWidestRun(a: string, b: string)
    ensures NextPrefix([Entry("123_" + a, true), Entry("04_" + b, true)]) == "124_"
  {
    var e0, e1 := Entry("123_" + a, true), Entry("04_" + b, true);
    assert MaxNum([e0, e1]) == 123 && MaxWidth([e0, e1]) == 3 by {
      assert MatchedValue(e0) == 123 && MatchedWidth(e0) == 3 by {
        assert "123" + "_" == "123_";
        MatchedDirectory("123", a);
        assert "123"[..2] == "12" && "12"[..1] == "1";
      }
      assert MatchedValue(e1) == 4 && MatchedWidth(e1) == 2 by {
        assert "04" + "_" == "04_";
        MatchedDirectory("04", b);
        assert "04"[..1] == "0";
      }
      ScanTwo(e0, e1);
    }
    PaddedToWidest();
  }

  /** A directory `99_…` gives `100_`: the number grows past the width instead of wrapping. */
  lemma ExampleNeverTruncated(a: string)
    ensures NextPrefix([Entry("99_" + a, true)]) == "100_"
  {
    var e0 := Entry("99_" + a, true);
    assert MaxNum([e0]) == 99 && MaxWidth([e0]) == 2 by {
      assert MatchedValue(e0) == 99 && MatchedWidth(e0) == 2 by {
        assert "99" + "_" == "99_";
        MatchedDirectory("99", a);
        assert "99"[..1] == "9";
      }
      assert [e0][..0] == [];
    }
    GrowsPastWidth();
  }

  /** No digit run followed by `_` in a directory name, and a matching file, give `""`. */
  lemma ExampleNoMatch()
    ensures NextPrefix([Entry("notes", true), Entry("05_file.txt", false), Entry("7x_a", true)]) == ""
  {
    var es := [Entry("notes", true), Entry("05_file.txt", false), Entry("7x_a", true)];
    assert MaxNum(es) == -1 by {
      assert MatchedValue(es[0]) == -1 by {
        assert LeadingDigits("notes") == [];
      }
      assert MatchedValue(es[2]) == -1 by {
        assert LeadingDigits("7x_a") == "7" by {
          assert "7x_a"[1..] == "x_a";
        }
      }
      ScanTwo(es[0], es[1]);
      assert es[..2] == [es[0], es[1]];
    }
  }
}
