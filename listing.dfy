/**
 * The table `workdir list` prints: a header, a rule, and one row per
 * template, sorted by name, giving the name and whether it is a builtin or
 * an alias.
 */
module Listing {
  import opened Text
  import opened Config

  /** The TYPE column for a template's value. */
  function Kind(value: string): string {
    if value == BuiltinTag then "builtin" else "alias"
  }

  /** The TYPE column is "builtin" exactly for the value "builtin", and "alias" for every reference. */
  lemma KindIsBuiltinOrAlias(value: string)
    ensures Kind(value) == "builtin" <==> value == BuiltinTag
    ensures Kind(value) != "builtin" ==> Kind(value) == "alias"
  {
  }

  /** One line of the table: the name left-justified to the column width, two spaces, the type. */
  function Row(name: string, kind: string, width: nat): string {
    PadRight(name, width) + "  " + kind
  }

  /** The length of the longest name, 0 for none (`max(len(k) for k in ...)`). */
  function MaxLength(names: seq<string>): (w: nat)
    ensures forall i :: 0 <= i < |names| ==> |names[i]| <= w
    ensures names != [] ==> exists i :: 0 <= i < |names| && |names[i]| == w
    decreases |names|
  {
    if names == [] then 0
    else
      var rest := MaxLength(names[1..]);
      assert forall i :: 1 <= i < |names| ==> names[i] == names[1..][i - 1];
      if |names[0]| > rest then |names[0]| else rest
  }

  // ---------------------------------------------------------------------
  // Sorting the names
  // ---------------------------------------------------------------------

  /** `m` is in `names` and nothing in `names` comes before it. */
  ghost predicate IsLeast(m: string, names: set<string>) {
    m in names && forall y :: y in names ==> !Less(y, m)
  }

  lemma {:induction false} LeastExists(names: set<string>)
    requires names != {}
    ensures exists m :: IsLeast(m, names)
    decreases |names|
  {
    var x :| x in names;
    if names != {x} {
      var rest := names - {x};
      LeastExists(rest);
      var m :| IsLeast(m, rest);
      if Less(x, m) {
        forall y | y in names
          ensures !Less(y, x)
        {
          LessIrreflexive(x);
          if y != x && Less(y, x) {
            LessTransitive(y, x, m);
          }
        }
        assert IsLeast(x, names);
      } else {
        assert IsLeast(m, names);
      }
    } else {
      LessIrreflexive(x);
      assert IsLeast(x, names);
    }
  }

  /**
   * The names in Python's `sorted` order: strictly increasing, exactly the
   * given names, each once.
   */
  ghost function SortedKeys(names: set<string>): (sorted: seq<string>)
    ensures StrictlySorted(sorted)
    ensures forall k :: k in sorted <==> k in names
    ensures |sorted| == |names|
    decreases |names|
  {
    if names == {} then []
    else
      LeastExists(names);
      var m :| IsLeast(m, names);
      var rest := SortedKeys(names - {m});
      assert forall k :: k in rest ==> Less(m, k) by {
        forall k | k in rest
          ensures Less(m, k)
        {
          LessTotal(m, k);
        }
      }
      [m] + rest
  }

  /** Two strictly increasing sequences with the same elements are the same sequence. */
  lemma {:induction false} StrictlySortedUnique(a: seq<string>, b: seq<string>)
    requires StrictlySorted(a) && StrictlySorted(b)
    requires |a| == |b| && forall k :: k in a <==> k in b
    ensures a == b
    decreases |a|
  {
    if a != [] && b != [] {
      if a[0] != b[0] {
        assert b[0] in a && a[0] in b;
        var i :| 0 <= i < |a| && a[i] == b[0];
        var j :| 0 <= j < |b| && b[j] == a[0];
        assert Less(a[0], b[0]) by {
          assert i > 0;
        }
        assert Less(b[0], a[0]) by {
          assert j > 0;
        }
        LessAsymmetric(a[0], b[0]);
      }
      forall k
        ensures k in a[1..] <==> k in b[1..]
      {
        if k in a[1..] {
          var i :| 1 <= i < |a| && a[i] == k;
          assert Less(a[0], k);
          if k == b[0] {
            LessIrreflexive(k);
          }
          assert k in b;
        }
        if k in b[1..] {
          var j :| 1 <= j < |b| && b[j] == k;
          assert Less(b[0], k);
          if k == a[0] {
            LessIrreflexive(k);
          }
          assert k in a;
        }
      }
      StrictlySortedUnique(a[1..], b[1..]);
      assert a == [a[0]] + a[1..] && b == [b[0]] + b[1..];
    }
  }

  /** The least of a non-empty set of names, by a scan over the set. */
  method Least(names: set<string>) returns (m: string)
    requires names != {}
    ensures IsLeast(m, names)
  {
    m :| m in names;
    LessIrreflexive(m);
    var todo := names - {m};
    while todo != {}
      invariant todo <= names && m in names
      invariant forall y :: y in names && y !in todo ==> !Less(y, m)
      decreases |todo|
    {
      var y :| y in todo;
      if Less(y, m) {
        forall z | z in names && z !in todo
          ensures !Less(z, y)
        {
          if Less(z, y) {
            LessTransitive(z, y, m);
          }
        }
        LessIrreflexive(y);
        m := y;
      }
      todo := todo - {y};
    }
  }

  /** `sorted(...)` over the template names: repeatedly takes the least remaining name. */
  method SortedNames(names: set<string>) returns (sorted: seq<string>)
    ensures sorted == SortedKeys(names)
  {
    sorted := [];
    var todo := names;
    while todo != {}
      invariant todo <= names
      invariant StrictlySorted(sorted)
      invariant forall k :: k in sorted <==> k in names && k !in todo
      invariant |sorted| + |todo| == |names|
      invariant forall i, y :: 0 <= i < |sorted| && y in todo ==> Less(sorted[i], y)
      decreases |todo|
    {
      var m := Least(todo);
      forall y | y in todo - {m}
        ensures Less(m, y)
      {
        LessTotal(m, y);
      }
      sorted := sorted + [m];
      todo := todo - {m};
    }
    StrictlySortedUnique(sorted, SortedKeys(names));
  }

  // ---------------------------------------------------------------------
  // The table
  // ---------------------------------------------------------------------

  /** The header line and the rule under it. */
  function Header(width: nat): seq<string> {
    [Row("NAME", "TYPE", width), Repeat('-', width + 2 + 6)]
  }

  /** The rows for `names`, in the order given. */
  function Rows(templates: map<string, string>, names: seq<string>, width: nat): (rows: seq<string>)
    requires forall i :: 0 <= i < |names| ==> names[i] in templates
    ensures |rows| == |names|
    ensures forall i :: 0 <= i < |names| ==> rows[i] == Row(names[i], Kind(templates[names[i]]), width)
    decreases |names|
  {
    if names == [] then []
    else
      var init := names[..|names| - 1];
      var last := names[|names| - 1];
      assert forall i :: 0 <= i < |init| ==> init[i] == names[i];
      Rows(templates, init, width) + [Row(last, Kind(templates[last]), width)]
  }

  /**
   * The lines `workdir list` prints for `templates`: none when there are no
   * templates; otherwise the header, a rule of `-` as long as the widest name
   * plus eight, and one row per template in name order.
   */
  ghost function TemplateTable(templates: map<string, string>): seq<string> {
    if |templates| == 0 then []
    else
      var names := SortedKeys(templates.Keys);
      Header(MaxLength(names)) + Rows(templates, names, MaxLength(names))
  }

  /**
   * The body of `cmd_list` once the templates are loaded: nothing printed
   * for an empty map; otherwise header, rule and rows, row by row.
   */
  method RenderTable(templates: map<string, string>) returns (lines: seq<string>)
    ensures lines == TemplateTable(templates)
  {
    if |templates| == 0 {
      return [];
    }
    var names := SortedNames(templates.Keys);
    var maxLen := MaxLength(names);
    lines := TableLines(templates, names, maxLen);
  }

  /** The printing loop of `cmd_list`: the header, the rule, then one row per name in order. */
  method TableLines(templates: map<string, string>, names: seq<string>, width: nat)
    returns (lines: seq<string>)
    requires forall i :: 0 <= i < |names| ==> names[i] in templates
    ensures lines == Header(width) + Rows(templates, names, width)
  {
    lines := [Row("NAME", "TYPE", width), Repeat('-', width + 2 + 6)];
    for i := 0 to |names|
      invariant lines == Header(width) + Rows(templates, names[..i], width)
    {
      var name := names[i];
      var kind := Kind(templates[name]);
      RowsStep(templates, names, width, i);
      lines := lines + [Row(name, kind, width)];
    }
    assert names[..|names|] == names;
  }

  /** The rows for one more name are the rows so far and the row for that name. */
  lemma RowsStep(templates: map<string, string>, names: seq<string>, width: nat, i: nat)
    requires forall j :: 0 <= j < |names| ==> names[j] in templates
    requires i < |names|
    ensures Rows(templates, names[..i + 1], width) ==
            Rows(templates, names[..i], width) + [Row(names[i], Kind(templates[names[i]]), width)]
  {
    assert names[..i + 1][..i] == names[..i];
  }

  /**
   * What the table shows: one row per template in strictly increasing name
   * order, each name padded to exactly the width of the longest name, the
   * type column "builtin" or "alias" as the value says, and a rule of width
   * plus eight dashes.
   */
  lemma TemplateTableSpec(templates: map<string, string>, names: seq<string>, width: nat)
    requires |templates| > 0
    requires names == SortedKeys(templates.Keys) && width == MaxLength(names)
    ensures |TemplateTable(templates)| == |templates| + 2
    ensures forall k :: k in templates ==> |k| <= width
    ensures exists k :: k in templates && |k| == width
    ensures TemplateTable(templates)[0] == Row("NAME", "TYPE", width)
    ensures TemplateTable(templates)[1] == Repeat('-', width + 8)
    ensures StrictlySorted(names) && forall k :: k in names <==> k in templates
    ensures forall i :: 0 <= i < |names| ==> |PadRight(names[i], width)| == width
    ensures forall i :: 0 <= i < |names| ==>
              TemplateTable(templates)[i + 2] == Row(names[i], Kind(templates[names[i]]), width)
  {
    assert forall i :: 0 <= i < |names| ==> names[i] in templates;
    assert TemplateTable(templates) == Header(width) + Rows(templates, names, width);
    HeaderAndRows(templates, names, width);
    WidestKey(templates, names, width);
  }

  /** The longest sorted name is the longest key. */
  lemma WidestKey(templates: map<string, string>, names: seq<string>, width: nat)
    requires |names| > 0 && (forall k :: k in names <==> k in templates) && width == MaxLength(names)
    ensures forall k :: k in templates ==> |k| <= width
    ensures exists k :: k in templates && |k| == width
  {
    forall k | k in templates
      ensures |k| <= width
    {
      var i :| 0 <= i < |names| && names[i] == k;
    }
    var i :| 0 <= i < |names| && |names[i]| == width;
    assert names[i] in templates;
  }

  /** Where the header, the rule and each row sit among the lines. */
  lemma HeaderAndRows(templates: map<string, string>, names: seq<string>, width: nat)
    requires forall i :: 0 <= i < |names| ==> names[i] in templates
    requires forall i :: 0 <= i < |names| ==> |names[i]| <= width
    ensures var lines := Header(width) + Rows(templates, names, width);
      && |lines| == |names| + 2
      && lines[0] == Row("NAME", "TYPE", width)
      && lines[1] == Repeat('-', width + 8)
      && forall i :: 0 <= i < |names| ==>
           && |PadRight(names[i], width)| == width
           && lines[i + 2] == Row(names[i], Kind(templates[names[i]]), width)
  {
    var lines := Header(width) + Rows(templates, names, width);
    assert width + 2 + 6 == width + 8;
    forall i | 0 <= i < |names|
      ensures lines[i + 2] == Row(names[i], Kind(templates[names[i]]), width)
    {
      assert lines[i + 2] == Rows(templates, names, width)[i];
    }
  }
}
