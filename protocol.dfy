/**
 * The grading-script output protocol: every stdout line containing ':' is a
 * result, split at its first ':' into a label and a status, both stripped; a
 * later line for the same label overwrites an earlier one. Grading scripts
 * write such lines with `print(key, ' : ', value)`.
 */
module Protocol {
  import opened Outcomes
  import opened Text
  import opened Dicts

  /** One stdout line: `map(str.strip, line.split(':', 1))` when ':' occurs in it. */
  function ParseLine(line: string): (r: Option<(string, string)>)
    ensures r.Some? <==> ':' in line
    ensures r.Some? ==> Stripped(r.value.0) && Stripped(r.value.1) && ':' !in r.value.0
  {
    ContainsChar(line, ':');
    match SplitFirst(line, ":")
    case None => None
    case Some(parts) =>
      ContainsChar(parts.0, ':');
      StrippedStrip(parts.0);
      StrippedStrip(parts.1);
      StripSubset(parts.0);
      Some((Strip(parts.0), Strip(parts.1)))
  }

  /** The pair one line contributes: its parse, when it has one. */
  function LinePair(line: string): (r: seq<(string, string)>)
    ensures |r| <= 1
  {
    match ParseLine(line)
    case None => []
    case Some(p) => [p]
  }

  /** The label/status pairs of the lines that contain ':', in line order. */
  function LinePairs(lines: seq<string>): (r: seq<(string, string)>)
    ensures |r| <= |lines|
  {
    if lines == [] then [] else LinePair(lines[0]) + LinePairs(lines[1..])
  }

  /** The results dictionary built from a grading script's stdout. */
  function ParseOutput(output: string): Dict<string> {
    FromPairs(LinePairs(Split(output, '\n')))
  }

  lemma {:induction false} LinePairsSnoc(lines: seq<string>, line: string)
    ensures LinePairs(lines + [line]) == LinePairs(lines) + LinePair(line)
  {
    if lines == [] {
      assert lines + [line] == [line];
      assert LinePairs([line]) == LinePair(line) + LinePairs([]);
    } else {
      SnocTail(lines, line);
      LinePairsSnoc(lines[1..], line);
      ConcatAssoc(LinePair(lines[0]), LinePairs(lines[1..]), LinePair(line));
    }
  }

  /** The parsing loop of the graders: split stdout into lines and keep those with ':'. */
  method ReadResults(output: string) returns (results: Dict<string>)
    ensures results == ParseOutput(output)
  {
    var lines := Split(output, '\n');
    var pairs: seq<(string, string)> := [];
    var i := 0;
    while i < |lines|
      invariant 0 <= i <= |lines|
      invariant pairs == LinePairs(lines[..i])
    {
      LinePairsSnoc(lines[..i], lines[i]);
      PrefixSnoc(lines, i);
      // `ParseLine` has a value exactly when ':' occurs in the line.
      var p := ParseLine(lines[i]);
      if p.Some? {
        pairs := pairs + [p.value];
      }
      i := i + 1;
    }
    assert lines[..i] == lines;
    results := FromPairs(pairs);
  }

  /** Each label maps to the status of the LAST line carrying that label. */
  lemma LaterLineWins(output: string, k: string)
    ensures Get(ParseOutput(output), k) == LastValue(LinePairs(Split(output, '\n')), k)
  {
    GetFromPairs(LinePairs(Split(output, '\n')), k);
  }

  /** What `print(key, ' : ', value)` writes: the arguments joined by single spaces. */
  function FormatLine(key: string, val: string): string {
    key + "  :  " + val
  }

  function FormatLines(results: Dict<string>): (r: seq<string>)
    ensures |r| == |results|
    ensures forall i :: 0 <= i < |r| ==> r[i] == FormatLine(results[i].0, results[i].1)
  {
    if results == [] then [] else [FormatLine(results[0].0, results[0].1)] + FormatLines(results[1..])
  }

  /** A label and a status that survive the trip through a printed line. */
  predicate Printable(key: string, val: string) {
    ':' !in key && '\n' !in key && '\n' !in val && Stripped(key) && Stripped(val)
  }

  lemma StripSubset(s: string)
    ensures forall c :: c in Strip(s) ==> c in s
  {
    var l := TrimLeft(s);
    var k := |s| - |l|;
    var r := TrimRight(l);
    TrimLeftSuffix(s);
    TrimRightPrefix(l);
    assert r == s[k..k + |r|];
    SliceMembers(s, k, k + |r|);
  }

  lemma SliceMembers<T>(s: seq<T>, a: nat, b: nat)
    requires a <= b <= |s|
    ensures forall x :: x in s[a..b] ==> x in s
  {
    forall x | x in s[a..b]
      ensures x in s
    {
      var i :| 0 <= i < b - a && s[a..b][i] == x;
      assert s[a + i] == x;
    }
  }

  /** Two splits of the same string at a ':' with none before it agree. */
  lemma FirstColonUnique(a1: string, b1: string, a2: string, b2: string)
    requires a1 + ":" + b1 == a2 + ":" + b2
    requires ':' !in a1 && ':' !in a2
    ensures a1 == a2 && b1 == b2
  {
    var s := a1 + ":" + b1;
    assert s[..|a1|] == a1 && s[|a1|] == ':';
    CharIndexAt(s, ':', |a1|);
    assert s[..|a2|] == a2 && s[|a2|] == ':';
    CharIndexAt(s, ':', |a2|);
    assert b1 == s[|a1| + 1..] && b2 == s[|a2| + 1..];
  }

  lemma ParseFormatLine(key: string, val: string)
    requires Printable(key, val)
    ensures ParseLine(FormatLine(key, val)) == Some((key, val))
  {
    SplitFormatLine(key, val);
    StripPadded([], key, "  ");
    assert [] + key + "  " == key + "  ";
    StripPadded("  ", val, []);
    assert "  " + val + [] == "  " + val;
  }

  /** A printed line splits at the ':' that `print` put between the arguments. */
  lemma SplitFormatLine(key: string, val: string)
    requires ':' !in key
    ensures SplitFirst(FormatLine(key, val), ":") == Some((key + "  ", "  " + val))
  {
    var line := FormatLine(key, val);
    assert line == (key + "  ") + ":" + ("  " + val);
    assert ':' in line by { assert line[|key| + 2] == ':'; }
    ContainsChar(line, ':');
    var parts := SplitFirst(line, ":").value;
    ContainsChar(parts.0, ':');
    assert ':' !in key + "  ";
    FirstColonUnique(parts.0, parts.1, key + "  ", "  " + val);
  }

  /** Lines that each parse to the matching result, then an empty last line. */
  lemma LinePairsOfLines(lines: seq<string>, results: Dict<string>)
    requires |lines| == |results|
    requires forall i :: 0 <= i < |lines| ==> ParseLine(lines[i]) == Some(results[i])
    ensures LinePairs(lines + [""]) == results
  {
    forall i | 0 <= i < |lines|
      ensures LinePair(lines[i]) == [results[i]]
    {
    }
    LinePairsOfParsed(lines, results);
    LinePairsSnoc(lines, "");
    assert ParseLine("").None?;
    assert results + [] == results;
  }

  lemma {:induction false} LinePairsOfParsed(lines: seq<string>, results: Dict<string>)
    requires |lines| == |results|
    requires forall i :: 0 <= i < |lines| ==> LinePair(lines[i]) == [results[i]]
    ensures LinePairs(lines) == results
  {
    if lines != [] {
      LinePairsOfParsed(lines[1..], results[1..]);
      ConsTail(results);
    }
  }

  lemma FormatLineNoNewline(key: string, val: string)
    requires '\n' !in key && '\n' !in val
    ensures '\n' !in FormatLine(key, val)
  {
  }

  /**
   * A grading script that prints its results one `print(key, ' : ', value)`
   * per result is read back by the server as exactly those results, when the
   * labels are distinct and free of ':', and no label or status has newlines
   * or surrounding whitespace.
   */
  lemma PrintParseRoundTrip(results: Dict<string>)
    requires Valid(results)
    requires forall i :: 0 <= i < |results| ==> Printable(results[i].0, results[i].1)
    ensures ParseOutput(Unlines(FormatLines(results))) == results
  {
    var lines := FormatLines(results);
    forall i | 0 <= i < |lines|
      ensures '\n' !in lines[i] && ParseLine(lines[i]) == Some(results[i])
    {
      ParseFormatLine(results[i].0, results[i].1);
      FormatLineNoNewline(results[i].0, results[i].1);
    }
    SplitUnlines(lines);
    LinePairsOfLines(lines, results);
    FromPairsDistinct(results);
  }
}
