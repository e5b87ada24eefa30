/** The substitutions the client applies to the output of `formatList`
    before showing the advice (script.js, lines 227-232): three heading
    patterns, the bold pattern and the replacement of every newline by
    `<br>`.

    The four patterns carry the `m` flag, so `^` and `$` hold at the ends
    of each line, and the `g` flag, so every line can match once; `.`
    never crosses a line terminator in any case, as no pattern carries the
    `s` flag. A pattern of that kind rewrites a text
    line by line, which `PerLine` expresses. */
module Render {
  import opened JsText
  import opened Markdown

  // ---------------------------------------------------------------------
  // Line-local rewriting
  // ---------------------------------------------------------------------

  /** The index of the first line terminator of `s`, or `|s|`. */
  function LineEnd(s: string): (k: nat)
    ensures k <= |s|
    ensures NoLineTerminator(s[..k])
    ensures k < |s| ==> IsLineTerminator(s[k])
  {
    if |s| == 0 then 0
    else if IsLineTerminator(s[0]) then 0
    else
      var k := LineEnd(s[1..]);
      assert s[..k + 1] == [s[0]] + s[1..][..k];
      k + 1
  }

  /** `s` with `f` applied to each of its lines, the line terminators kept
      where they were. */
  function PerLine(f: string -> string, s: string): string
    decreases |s|
  {
    var k := LineEnd(s);
    if k == |s| then f(s)
    else f(s[..k]) + [s[k]] + PerLine(f, s[k + 1..])
  }

  lemma {:induction false} LineEndWhole(a: string)
    requires NoLineTerminator(a)
    ensures LineEnd(a) == |a|
  {
    if |a| > 0 {
      assert !IsLineTerminator(a[0]);
      LineEndWhole(a[1..]);
    }
  }

  lemma {:induction false} LineEndAt(a: string, c: char, t: string)
    requires NoLineTerminator(a) && IsLineTerminator(c)
    ensures LineEnd(a + [c] + t) == |a|
  {
    var s := a + [c] + t;
    if |a| == 0 {
      assert s[0] == c;
    } else {
      assert s[0] == a[0] && !IsLineTerminator(a[0]);
      assert s[1..] == a[1..] + [c] + t;
      LineEndAt(a[1..], c, t);
    }
  }

  /** A text without line terminators is a single line. */
  lemma PerLineSingle(f: string -> string, a: string)
    requires NoLineTerminator(a)
    ensures PerLine(f, a) == f(a)
  {
    LineEndWhole(a);
  }

  /** A line, its terminator, and the rest of the text. */
  lemma PerLineCons(f: string -> string, a: string, c: char, t: string)
    requires NoLineTerminator(a) && IsLineTerminator(c)
    ensures PerLine(f, a + [c] + t) == f(a) + [c] + PerLine(f, t)
  {
    var s := a + [c] + t;
    LineEndAt(a, c, t);
    assert s[..|a|] == a;
    assert s[|a| + 1..] == t;
  }

  // ---------------------------------------------------------------------
  // Headings: /^### (.*$)/gim, /^## (.*$)/gim, /^# (.*$)/gim
  // ---------------------------------------------------------------------

  /** One line under `/^<marker>(.*$)/` with replacement `<open>$1<close>`:
      a line that starts with the marker is wrapped, without it. */
  function WrapHeading(line: string, marker: string, open: string, close: string): string
  {
    if StartsWith(line, marker) then open + line[|marker|..] + close else line
  }

  function H3Line(line: string): string {
    WrapHeading(line, "### ", "<h3>", "</h3>")
  }

  function H2Line(line: string): string {
    WrapHeading(line, "## ", "<h2>", "</h2>")
  }

  function H1Line(line: string): string {
    WrapHeading(line, "# ", "<h1>", "</h1>")
  }

  /** The three heading substitutions, in the order the client applies
      them. */
  function Headings(s: string): string {
    PerLine(H1Line, PerLine(H2Line, PerLine(H3Line, s)))
  }

  /** What the heading substitutions do to one line: the longest marker
      that starts the line decides the level; any other line is left as it
      is ("#### x", "#x" and "<h3>" are not headings). */
  function HeadingLine(line: string): (r: string)
  {
    if StartsWith(line, "### ") then "<h3>" + line[4..] + "</h3>"
    else if StartsWith(line, "## ") then "<h2>" + line[3..] + "</h2>"
    else if StartsWith(line, "# ") then "<h1>" + line[2..] + "</h1>"
    else line
  }

  /** A heading substitution keeps a line one line. */
  lemma WrapKeepsLines(line: string, marker: string, open: string, close: string)
    requires NoLineTerminator(line) && NoLineTerminator(open) && NoLineTerminator(close)
    ensures NoLineTerminator(WrapHeading(line, marker, open, close))
  {
    if StartsWith(line, marker) {
      var r := WrapHeading(line, marker, open, close);
      var body := line[|marker|..];
      assert r == open + body + close;
      forall k | 0 <= k < |r|
        ensures !IsLineTerminator(r[k])
      {
        if k < |open| {
          assert r[k] == open[k];
        } else if k < |open| + |body| {
          assert r[k] == line[|marker| + k - |open|];
        } else {
          assert r[k] == close[k - |open| - |body|];
        }
      }
    }
  }

  /** On a single line the three substitutions in a row are the
      `HeadingLine` decision: a line wrapped by an earlier pattern starts
      with '<' and is not matched again, and a line the earlier patterns
      leave alone is tried by the next one. */
  lemma HeadingLineSteps(line: string)
    ensures H1Line(H2Line(H3Line(line))) == HeadingLine(line)
  {
    if StartsWith(line, "### ") {
      var r := H3Line(line);
      assert r[0] == '<';
      assert !StartsWith(r, "## ") && !StartsWith(r, "# ");
    } else if StartsWith(line, "## ") {
      assert line[2] == ' ';
      var r := H2Line(line);
      assert r[0] == '<';
      assert !StartsWith(r, "# ");
    } else if StartsWith(line, "# ") {
      assert line[1] == ' ';
    }
  }

  /** The three passes over the whole text are one line-by-line pass of
      `HeadingLine`. */
  lemma {:induction false} HeadingsPerLine(s: string)
    ensures Headings(s) == PerLine(HeadingLine, s)
    decreases |s|
  {
    var k := LineEnd(s);
    var a := s[..k];
    WrapKeepsLines(a, "### ", "<h3>", "</h3>");
    WrapKeepsLines(H3Line(a), "## ", "<h2>", "</h2>");
    HeadingLineSteps(a);
    if k == |s| {
      assert a == s;
      PerLineSingle(H3Line, s);
      PerLineSingle(H2Line, H3Line(s));
      PerLineSingle(H1Line, H2Line(H3Line(s)));
      PerLineSingle(HeadingLine, s);
    } else {
      var c, rest := s[k], s[k + 1..];
      assert s == a + [c] + rest;
      HeadingsPerLine(rest);
      PerLineCons(H3Line, a, c, rest);
      PerLineCons(H2Line, H3Line(a), c, PerLine(H3Line, rest));
      PerLineCons(H1Line, H2Line(H3Line(a)), c, PerLine(H2Line, PerLine(H3Line, rest)));
      PerLineCons(HeadingLine, a, c, rest);
    }
  }

  // ---------------------------------------------------------------------
  // Bold: /\*\*(.*)\*\*/gim
  // ---------------------------------------------------------------------

  /** Two asterisks start at index `i` of `line`. */
  predicate PairAt(line: string, i: int) {
    0 <= i && i + 1 < |line| && line[i] == '*' && line[i + 1] == '*'
  }

  /** The index of the first "**" of `line`, or -1 when there is none. */
  function FirstPair(line: string): (r: int)
    ensures -1 <= r < |line|
    ensures r >= 0 ==> PairAt(line, r)
    ensures forall i :: 0 <= i < |line| && (r < 0 || i < r) ==> !PairAt(line, i)
  {
    if |line| < 2 then -1
    else if PairAt(line, 0) then 0
    else
      var k := FirstPair(line[1..]);
      assert forall i :: 1 <= i < |line| ==> (PairAt(line, i) <==> PairAt(line[1..], i - 1));
      if k < 0 then -1 else k + 1
  }

  /** The index of the last "**" of `line`, or -1 when there is none. */
  function LastPair(line: string): (r: int)
    ensures -1 <= r < |line|
    ensures r >= 0 ==> PairAt(line, r)
    ensures forall i :: 0 <= i < |line| && r < i ==> !PairAt(line, i)
  {
    if |line| < 2 then -1
    else if PairAt(line, |line| - 2) then |line| - 2
    else
      var k := LastPair(line[..|line| - 1]);
      assert forall i :: 0 <= i < |line| - 2 ==> (PairAt(line, i) <==> PairAt(line[..|line| - 1], i));
      k
  }

  /** The pattern matches `line` from `p` to the end of the pair at `q`:
      "**", any text, "**". */
  predicate BoldMatch(line: string, p: int, q: int) {
    PairAt(line, p) && PairAt(line, q) && p + 2 <= q
  }

  /** The replacement `<strong>$1</strong>` of the match from `p` to the
      pair at `q`: the text between the two pairs becomes bold, and the
      text around the match is kept. */
  function Embolden(line: string, p: int, q: int): string
    requires BoldMatch(line, p, q)
  {
    line[..p] + "<strong>" + line[p + 2..q] + "</strong>" + line[q + 2..]
  }

  /** The substitution on one line: from the first "**" to the last one,
      when they do not overlap, the text between becomes bold. */
  function BoldLine(line: string): string {
    var p := FirstPair(line);
    var q := LastPair(line);
    if BoldMatch(line, p, q) then Embolden(line, p, q) else line
  }

  /** `BoldLine` is the regular expression's own choice: it rewrites the
      line exactly when some match exists, and then at the match that
      starts leftmost and, the `.*` being greedy, ends rightmost. Starting
      at the first "**" is what makes a single match per line: nothing
      after the last "**" can start another one. */
  lemma BoldLineIsLeftmostLongest(line: string)
    ensures (exists p, q :: BoldMatch(line, p, q))
            <==> BoldMatch(line, FirstPair(line), LastPair(line))
    ensures forall p, q :: BoldMatch(line, p, q) ==>
              FirstPair(line) <= p && q <= LastPair(line)
    ensures !BoldMatch(line, FirstPair(line), LastPair(line)) ==> BoldLine(line) == line
    ensures BoldMatch(line, FirstPair(line), LastPair(line)) ==>
            var p, q := FirstPair(line), LastPair(line);
            BoldLine(line) == Embolden(line, p, q)
            && (forall i :: q < i < |line| ==> !PairAt(line, i))
  {
    BoldMatchesWithin(line);
    BoldSomeMatch(line);
    BoldRewrite(line);
  }

  /** Some match exists exactly when the first and the last "**" form
      one. */
  lemma BoldSomeMatch(line: string)
    ensures (exists p, q :: BoldMatch(line, p, q))
            <==> BoldMatch(line, FirstPair(line), LastPair(line))
  {
    if exists p, q :: BoldMatch(line, p, q) {
      var p, q :| BoldMatch(line, p, q);
      BoldMatchesWithin(line);
      assert BoldMatch(line, FirstPair(line), LastPair(line));
    }
  }

  /** What `BoldLine` writes, in terms of the first and the last "**". */
  lemma BoldRewrite(line: string)
    ensures !BoldMatch(line, FirstPair(line), LastPair(line)) ==> BoldLine(line) == line
    ensures BoldMatch(line, FirstPair(line), LastPair(line)) ==>
            var p, q := FirstPair(line), LastPair(line);
            BoldLine(line) == Embolden(line, p, q)
            && (forall i :: q < i < |line| ==> !PairAt(line, i))
  {
  }

  /** Every match starts at or after the first "**" and ends at or before
      the last one. */
  lemma BoldMatchesWithin(line: string)
    ensures forall p, q :: BoldMatch(line, p, q) ==>
              FirstPair(line) <= p && q <= LastPair(line)
  {
    forall p, q | BoldMatch(line, p, q)
      ensures FirstPair(line) <= p && q <= LastPair(line)
    {
      assert PairAt(line, p) && PairAt(line, q);
    }
  }

  /** The bold substitution keeps a line one line. */
  lemma BoldKeepsLines(t: string)
    requires NoLineTerminator(t)
    ensures NoLineTerminator(BoldLine(t))
  {
    var p, q := FirstPair(t), LastPair(t);
    if BoldMatch(t, p, q) {
      var a, b, c := t[..p], t[p + 2..q], t[q + 2..];
      NoLineTerminatorSlice(t, 0, p);
      NoLineTerminatorSlice(t, p + 2, q);
      NoLineTerminatorSlice(t, q + 2, |t|);
      assert t[0..p] == a && t[q + 2..|t|] == c;
      var strong, strongEnd := "<strong>", "</strong>";
      assert NoLineTerminator(strong) && NoLineTerminator(strongEnd);
      NoLineTerminatorConcat(a, strong);
      NoLineTerminatorConcat(a + strong, b);
      NoLineTerminatorConcat(a + strong + b, strongEnd);
      NoLineTerminatorConcat(a + strong + b + strongEnd, c);
    }
  }

  function Bold(s: string): string {
    PerLine(BoldLine, s)
  }

  // ---------------------------------------------------------------------
  // Line breaks: /\n/g -> "<br>"
  // ---------------------------------------------------------------------

  /** Every '\n' of `s` replaced by "<br>"; nothing else changes. */
  function Br(s: string): (r: string)
    ensures '\n' !in r
  {
    if |s| == 0 then ""
    else if s[0] == '\n' then "<br>" + Br(s[1..])
    else [s[0]] + Br(s[1..])
  }

  /** Replacing the newlines is splitting at them and joining with
      "<br>": the text between newlines survives unchanged. */
  lemma {:induction false} BrIsSplitJoin(s: string)
    ensures Br(s) == Join(Split(s, '\n'), "<br>")
  {
    if |s| > 0 {
      BrIsSplitJoin(s[1..]);
      var rest := Split(s[1..], '\n');
      if s[0] == '\n' {
        assert Split(s, '\n') == [""] + rest;
        assert ([""] + rest)[1..] == rest;
      } else {
        JoinPrependChar(s[0], rest, "<br>");
      }
    }
  }

  // ---------------------------------------------------------------------
  // The whole rendering
  // ---------------------------------------------------------------------

  /** The HTML the client builds from a non-empty `advice` before putting
      it into the response box. */
  function Rendered(advice: string): string {
    Br(Bold(Headings(Formatted(advice))))
  }

  /** The client's pipeline: `formatList`, then the four substitutions.
      The result is one HTML line. */
  method RenderAdvice(advice: string) returns (html: string)
    ensures html == Rendered(advice)
    ensures html == Br(Bold(PerLine(HeadingLine, Formatted(advice))))
    ensures '\n' !in html
  {
    var formatted := FormatList(advice);
    var headed := PerLine(H1Line, PerLine(H2Line, PerLine(H3Line, formatted)));
    HeadingsPerLine(formatted);
    html := Br(Bold(headed));
  }

  /** A list line followed by a text line: one list, then the line. */
  lemma FormattedItemThenText(item: string, line: string)
    requires '\n' !in item && '\n' !in line
    requires IsListLine(item) && !IsListLine(line)
    ensures Formatted(item + "\n" + line)
            == "<ul>" + (("<li>" + ItemText(item) + "</li>") + ("</ul>" + (line + "\n")))
  {
    var lines := [item] + [line];
    assert Join(lines, "\n") == item + "\n" + line;
    SplitJoin(lines, '\n');
    assert lines[1..] == [line] + [];
    HtmlTextLine(line, []);
    assert Html(Blocks(lines[1..])) == line + "\n";
    HtmlCloseList(lines[1..]);
    HtmlListItem(item, lines[1..]);
    HtmlOpenList(item, lines[1..]);
  }

  /** A heading written directly after list items is not rendered as a
      heading: `formatList` glues the closing "</ul>" to the front of that
      line, so the line no longer starts with '#'. On its own the same line
      would have become an `<h1>`. */
  lemma HeadingAfterListStaysText(item: string, heading: string)
    requires NoLineTerminator(item) && NoLineTerminator(heading)
    requires IsListLine(item) && StartsWith(heading, "# ")
    ensures Formatted(item + "\n" + heading)
            == "<ul>" + (("<li>" + ItemText(item) + "</li>") + ("</ul>" + (heading + "\n")))
    ensures Headings(Formatted(item + "\n" + heading)) == Formatted(item + "\n" + heading)
    ensures Headings(heading) == "<h1>" + heading[2..] + "</h1>"
  {
    assert '\n' !in item && '\n' !in heading by {
      assert forall k :: 0 <= k < |item| ==> !IsLineTerminator(item[k]);
      assert forall k :: 0 <= k < |heading| ==> !IsLineTerminator(heading[k]);
    }
    HeadingTrim(heading);
    FormattedItemThenText(item, heading);
    ItemTextKeepsLines(item);
    GluedItemUnchanged(ItemText(item), heading);
    HeadingAlone(heading);
  }

  /** The line `formatList` makes of a one-item list and the line after
      it passes the heading substitutions unchanged. */
  lemma GluedItemUnchanged(t: string, heading: string)
    requires NoLineTerminator(t) && NoLineTerminator(heading)
    ensures var s := "<ul>" + (("<li>" + t + "</li>") + ("</ul>" + (heading + "\n")));
            Headings(s) == s
  {
    var line := "<ul>" + ("<li>" + t + "</li>") + "</ul>" + heading;
    LineKeepsLines(line, t, heading);
    GluedLineUnchanged(line);
    assert line + "\n" == "<ul>" + (("<li>" + t + "</li>") + ("</ul>" + (heading + "\n")));
  }

  lemma HeadingAlone(heading: string)
    requires NoLineTerminator(heading) && StartsWith(heading, "# ")
    ensures Headings(heading) == "<h1>" + heading[2..] + "</h1>"
  {
    HeadingsPerLine(heading);
    PerLineSingle(HeadingLine, heading);
    assert heading[1] == ' ';
  }

  /** A line that starts with '<', followed by a newline, passes the
      heading substitutions unchanged. */
  lemma GluedLineUnchanged(line: string)
    requires NoLineTerminator(line) && |line| > 0 && line[0] == '<'
    ensures Headings(line + "\n") == line + "\n"
  {
    HeadingsPerLine(line + "\n");
    assert line + "\n" == line + ['\n'] + "";
    PerLineCons(HeadingLine, line, '\n', "");
    PerLineSingle(HeadingLine, "");
  }

  /** A heading line is not a list line. */
  lemma HeadingTrim(heading: string)
    requires StartsWith(heading, "# ")
    ensures !IsListLine(heading)
  {
    assert TrimStart(heading) == heading;
    var t := TrimEnd(heading);
    assert |t| >= 1 && t[0] == '#';
  }

  lemma ItemTextKeepsLines(item: string)
    requires IsListLine(item) && NoLineTerminator(item)
    ensures NoLineTerminator(ItemText(item))
  {
    var t := ItemText(item);
    var i :| TrimmedAt(item, Trim(item), i);
    forall k | 0 <= k < |t|
      ensures !IsLineTerminator(t[k])
    {
      assert t[k] == Trim(item)[k + 2] == item[i + k + 2];
    }
  }

  lemma LineKeepsLines(line: string, text: string, heading: string)
    requires NoLineTerminator(text) && NoLineTerminator(heading)
    requires line == "<ul>" + ("<li>" + text + "</li>") + "</ul>" + heading
    ensures NoLineTerminator(line)
  {
    forall k | 0 <= k < |line|
      ensures !IsLineTerminator(line[k])
    {
      if 8 <= k < 8 + |text| {
        assert line[k] == text[k - 8];
      } else if k >= 8 + |text| + 10 {
        assert line[k] == heading[k - 18 - |text|];
      }
    }
  }
}
