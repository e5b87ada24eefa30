/** The client's rendering of the counselling advice (script.js, the
    `formatList` helper and the substitution chain that follows it): list
    lines are grouped into `<ul>` blocks, then headings, bold text and line
    breaks are rewritten by regular expressions. */
module Markdown {
  import opened JsText

  // ---------------------------------------------------------------------
  // formatList
  // ---------------------------------------------------------------------

  /** A line is a list item when, trimmed, it starts with "* ". */
  predicate IsListLine(line: string) {
    StartsWith(Trim(line), "* ")
  }

  /** The text of a list item: the trimmed line without its leading "* ". */
  function ItemText(line: string): (r: string)
    requires IsListLine(line)
    ensures "* " + r == Trim(line)
  {
    Trim(line)[2..]
  }

  /** What formatList writes, one piece at a time. */
  datatype Piece = Open | Close | Item(text: string) | Line(text: string)

  function PieceHtml(p: Piece): string {
    match p
    case Open => "<ul>"
    case Close => "</ul>"
    case Item(t) => "<li>" + t + "</li>"
    case Line(t) => t + "\n"
  }

  function Html(ps: seq<Piece>): string {
    if |ps| == 0 then "" else PieceHtml(ps[0]) + Html(ps[1..])
  }

  lemma {:induction false} HtmlAppend(ps: seq<Piece>, qs: seq<Piece>)
    ensures Html(ps + qs) == Html(ps) + Html(qs)
  {
    if |ps| > 0 {
      assert (ps + qs)[0] == ps[0];
      assert (ps + qs)[1..] == ps[1..] + qs;
      HtmlAppend(ps[1..], qs);
      assert Html(ps + qs) == PieceHtml(ps[0]) + (Html(ps[1..]) + Html(qs));
    } else {
      assert ps + qs == qs;
    }
  }

  function ListHead(lines: seq<string>): nat {
    if |lines| > 0 && IsListLine(lines[0]) then 1 else 0
  }

  /** The block structure of the output, read as a grammar rather than as a
      scan with a flag: a text line stands for itself, and a maximal run of
      list lines is one list. */
  function Blocks(lines: seq<string>): seq<Piece>
    decreases |lines|, ListHead(lines)
  {
    if |lines| == 0 then []
    else if IsListLine(lines[0]) then [Open] + ListBlock(lines)
    else [Line(lines[0])] + Blocks(lines[1..])
  }

  /** The rest of an open list: its remaining items, its `</ul>`, then the
      blocks after it. */
  function ListBlock(lines: seq<string>): seq<Piece>
    decreases |lines|, 1 - ListHead(lines)
  {
    if |lines| > 0 && IsListLine(lines[0]) then [Item(ItemText(lines[0]))] + ListBlock(lines[1..])
    else [Close] + Blocks(lines)
  }

  /** What formatList(text) returns. */
  function Formatted(text: string): string {
    Html(Blocks(Split(text, '\n')))
  }

  /** The pieces formatList still has to write when `rest` is left and
      `inList` says whether a list is open. */
  function Remaining(inList: bool, rest: seq<string>): seq<Piece> {
    if inList then ListBlock(rest) else Blocks(rest)
  }

  /** formatList's step for a list line: open a list unless one is open,
      then write the item. */
  lemma ItemStep(before: string, inList: bool, rest: seq<string>)
    requires |rest| > 0 && IsListLine(rest[0])
    ensures (if inList then before else before + "<ul>") + ("<li>" + ItemText(rest[0]) + "</li>")
            + Html(Remaining(true, rest[1..]))
            == before + Html(Remaining(inList, rest))
  {
    var item := Item(ItemText(rest[0]));
    var tail := Html(ListBlock(rest[1..]));
    assert ListBlock(rest) == [item] + ListBlock(rest[1..]);
    HtmlCons(item, ListBlock(rest[1..]));
    if inList {
      Assoc(before, PieceHtml(item), tail);
    } else {
      assert Blocks(rest) == [Open] + ListBlock(rest);
      HtmlCons(Open, ListBlock(rest));
      Assoc("<ul>", PieceHtml(item), tail);
      Assoc(before + "<ul>", PieceHtml(item), tail);
      Assoc(before, "<ul>", PieceHtml(item) + tail);
    }
  }

  /** formatList's step for any other line: close the open list, if any,
      then copy the line and a newline. */
  lemma LineStep(before: string, inList: bool, rest: seq<string>)
    requires |rest| > 0 && !IsListLine(rest[0])
    ensures (if inList then before + "</ul>" else before) + (rest[0] + "\n")
            + Html(Remaining(false, rest[1..]))
            == before + Html(Remaining(inList, rest))
  {
    var line := Line(rest[0]);
    var tail := Html(Blocks(rest[1..]));
    assert Blocks(rest) == [line] + Blocks(rest[1..]);
    HtmlCons(line, Blocks(rest[1..]));
    if inList {
      assert ListBlock(rest) == [Close] + Blocks(rest);
      HtmlCons(Close, Blocks(rest));
      Assoc("</ul>", PieceHtml(line), tail);
      Assoc(before + "</ul>", PieceHtml(line), tail);
      Assoc(before, "</ul>", PieceHtml(line) + tail);
    } else {
      Assoc(before, PieceHtml(line), tail);
    }
  }

  lemma HtmlCons(p: Piece, ps: seq<Piece>)
    ensures Html([p] + ps) == PieceHtml(p) + Html(ps)
  {
    assert ([p] + ps)[0] == p && ([p] + ps)[1..] == ps;
  }

  /** The `forEach` callback of formatList (script.js:213-221) on one line:
      a list line opens a list unless one is open and adds its item; any
      other line closes an open list and is copied with a newline. In terms
      of the grammar, the line's pieces move from what is left to write to
      what is written. */
  method FormatLine(output: string, inList: bool, line: string, ghost rest: seq<string>)
    returns (output': string, inList': bool)
    requires |rest| > 0 && rest[0] == line
    ensures inList' == IsListLine(line)
    ensures output' + Html(Remaining(inList', rest[1..])) == output + Html(Remaining(inList, rest))
  {
    var trimmed := Trim(line);
    output', inList' := output, inList;
    if StartsWith(trimmed, "* ") {
      ItemStep(output, inList, rest);
      if !inList' {
        output' := output' + "<ul>";
        inList' := true;
      }
      output' := output' + ("<li>" + trimmed[2..] + "</li>");
    } else {
      LineStep(output, inList, rest);
      if inList' {
        output' := output' + "</ul>";
        inList' := false;
      }
      output' := output' + (line + "\n");
    }
  }

  /** formatList (script.js:209-224): one pass over the lines with an
      `inList` flag. */
  method FormatList(text: string) returns (output: string)
    ensures output == Formatted(text)
  {
    var lines := Split(text, '\n');
    var inList := false;
    output := "";
    var i := 0;
    while i < |lines|
      invariant 0 <= i <= |lines|
      invariant output + Html(Remaining(inList, lines[i..])) == Html(Blocks(lines))
    {
      assert lines[i + 1..] == lines[i..][1..];
      output, inList := FormatLine(output, inList, lines[i], lines[i..]);
      i := i + 1;
    }
    RemainingAtEnd(inList);
    if inList {
      output := output + "</ul>";
    }
  }

  /** What is left to write once every line is read: the `</ul>` of an
      open list, or nothing. */
  lemma RemainingAtEnd(inList: bool)
    ensures Html(Remaining(inList, [])) == if inList then "</ul>" else ""
  {
    if inList {
      HtmlCloseList([]);
    }
  }

  // ---------------------------------------------------------------------
  // What every output of formatList looks like
  // ---------------------------------------------------------------------

  /** A piece stream read left to right, `open` telling whether a list is
      open: a list is opened only when none is open and closed only when one
      is (so lists never nest and `<ul>`/`</ul>` alternate), an opened list
      starts with an item, a closed list is followed by a text line or the
      end (so two lists are never adjacent), items stand only inside a list,
      text lines only outside, and no list is left open at the end. */
  predicate WellFormed(ps: seq<Piece>, open: bool)
    decreases |ps|
  {
    if |ps| == 0 then !open
    else match ps[0]
      case Open => !open && |ps| > 1 && ps[1].Item? && WellFormed(ps[1..], true)
      case Close => open && (|ps| == 1 || ps[1].Line?) && WellFormed(ps[1..], false)
      case Item(_) => open && WellFormed(ps[1..], true)
      case Line(_) => !open && WellFormed(ps[1..], false)
  }

  lemma {:induction false} BlocksWellFormed(lines: seq<string>)
    ensures WellFormed(Blocks(lines), false)
    decreases |lines|, ListHead(lines)
  {
    if |lines| > 0 {
      if IsListLine(lines[0]) {
        ListBlockWellFormed(lines);
        assert Blocks(lines)[1..] == ListBlock(lines);
      } else {
        BlocksWellFormed(lines[1..]);
        assert Blocks(lines)[1..] == Blocks(lines[1..]);
      }
    }
  }

  lemma {:induction false} ListBlockWellFormed(lines: seq<string>)
    ensures WellFormed(ListBlock(lines), true)
    decreases |lines|, 1 - ListHead(lines)
  {
    if |lines| > 0 && IsListLine(lines[0]) {
      ListBlockWellFormed(lines[1..]);
      assert ListBlock(lines)[1..] == ListBlock(lines[1..]);
    } else {
      BlocksWellFormed(lines);
      assert ListBlock(lines)[1..] == Blocks(lines);
    }
  }

  /** The line pieces and item pieces, with the list brackets dropped. */
  function Erase(ps: seq<Piece>): seq<Piece> {
    if |ps| == 0 then []
    else if ps[0].Open? || ps[0].Close? then Erase(ps[1..])
    else [ps[0]] + Erase(ps[1..])
  }

  /** What a line becomes by itself: an item when it is a list line, itself
      otherwise. */
  function Classify(line: string): Piece {
    if IsListLine(line) then Item(ItemText(line)) else Line(line)
  }

  function ClassifyAll(lines: seq<string>): (r: seq<Piece>)
    ensures |r| == |lines|
    ensures forall k :: 0 <= k < |lines| ==> r[k] == Classify(lines[k])
  {
    if |lines| == 0 then [] else [Classify(lines[0])] + ClassifyAll(lines[1..])
  }

  /** Every line yields exactly one piece, in order: a list line the item
      `<li>` + trimmed line minus "* " + `</li>` (no newline), any other
      line itself followed by a newline. */
  lemma {:induction false} BlocksErase(lines: seq<string>)
    ensures Erase(Blocks(lines)) == ClassifyAll(lines)
    decreases |lines|, ListHead(lines)
  {
    if |lines| > 0 {
      if IsListLine(lines[0]) {
        ListBlockErase(lines);
        EraseCons(Open, ListBlock(lines));
      } else {
        BlocksErase(lines[1..]);
        EraseCons(Line(lines[0]), Blocks(lines[1..]));
        ClassifyAllCons(lines);
      }
    }
  }

  lemma EraseCons(p: Piece, ps: seq<Piece>)
    ensures Erase([p] + ps) == if p.Open? || p.Close? then Erase(ps) else [p] + Erase(ps)
  {
    assert ([p] + ps)[0] == p && ([p] + ps)[1..] == ps;
  }

  lemma ClassifyAllCons(lines: seq<string>)
    requires |lines| > 0
    ensures ClassifyAll(lines) == [Classify(lines[0])] + ClassifyAll(lines[1..])
  {
  }

  lemma {:induction false} ListBlockErase(lines: seq<string>)
    ensures Erase(ListBlock(lines)) == ClassifyAll(lines)
    decreases |lines|, 1 - ListHead(lines)
  {
    if |lines| > 0 && IsListLine(lines[0]) {
      ListBlockErase(lines[1..]);
      EraseCons(Item(ItemText(lines[0])), ListBlock(lines[1..]));
      ClassifyAllCons(lines);
    } else {
      BlocksErase(lines);
      EraseCons(Close, Blocks(lines));
    }
  }

  /** The two properties above pin the output down: a well-formed stream is
      determined by its lines and items. */
  lemma {:induction false} WellFormedUnique(ps: seq<Piece>, qs: seq<Piece>, open: bool)
    requires WellFormed(ps, open) && WellFormed(qs, open)
    requires Erase(ps) == Erase(qs)
    ensures ps == qs
    decreases |ps| + |qs|
  {
    if |ps| == 0 || |qs| == 0 {
      if |ps| > 0 { WellFormedEraseHead(ps, open); }
      if |qs| > 0 { WellFormedEraseHead(qs, open); }
    } else {
      WellFormedEraseHead(ps, open);
      WellFormedEraseHead(qs, open);
      if ps[0] != qs[0] {
        // the heads are an Open and a Line, or an Item and a Close
        assert false;
      }
      var next := if ps[0].Open? || ps[0].Item? then true else false;
      if ps[0].Open? || ps[0].Close? {
        assert Erase(ps) == Erase(ps[1..]) && Erase(qs) == Erase(qs[1..]);
      } else {
        assert Erase(ps)[1..] == Erase(ps[1..]) && Erase(qs)[1..] == Erase(qs[1..]);
      }
      WellFormedUnique(ps[1..], qs[1..], next);
      assert ps == [ps[0]] + ps[1..] && qs == [qs[0]] + qs[1..];
    }
  }

  /** The first erased piece of a well-formed stream shows what the stream
      starts with. */
  lemma WellFormedEraseHead(ps: seq<Piece>, open: bool)
    requires WellFormed(ps, open) && |ps| > 0
    ensures ps[0].Open? ==> !open && |Erase(ps)| > 0 && Erase(ps)[0].Item?
    ensures ps[0].Line? ==> !open && Erase(ps)[0] == ps[0]
    ensures ps[0].Item? ==> open && Erase(ps)[0] == ps[0]
    ensures ps[0].Close? ==> open && (Erase(ps) == [] || Erase(ps)[0].Line?)
  {
    if ps[0].Open? {
      assert Erase(ps) == Erase(ps[1..]);
      assert Erase(ps[1..]) == [ps[1]] + Erase(ps[2..]);
    } else if ps[0].Close? {
      assert Erase(ps) == Erase(ps[1..]);
      if |ps| > 1 {
        assert Erase(ps[1..]) == [ps[1]] + Erase(ps[2..]);
      }
    }
  }

  function CountOf(ps: seq<Piece>, p: Piece): nat {
    if |ps| == 0 then 0 else (if ps[0] == p then 1 else 0) + CountOf(ps[1..], p)
  }

  /** In a well-formed stream every open list is closed once. */
  lemma {:induction false} WellFormedBalanced(ps: seq<Piece>, open: bool)
    requires WellFormed(ps, open)
    ensures CountOf(ps, Open) + (if open then 1 else 0) == CountOf(ps, Close)
    decreases |ps|
  {
    if |ps| > 0 {
      WellFormedBalanced(ps[1..], if ps[0].Open? || ps[0].Item? then true else false);
    }
  }

  /** The output of formatList has as many `<ul>` as `</ul>`, in the
      alternating, non-nesting arrangement of `WellFormed`, also when a list
      runs to the end of the text; and each line is accounted for by exactly
      one piece. */
  lemma FormatListStructure(text: string)
    ensures WellFormed(Blocks(Split(text, '\n')), false)
    ensures CountOf(Blocks(Split(text, '\n')), Open) == CountOf(Blocks(Split(text, '\n')), Close)
    ensures Erase(Blocks(Split(text, '\n'))) == ClassifyAll(Split(text, '\n'))
  {
    var lines := Split(text, '\n');
    BlocksWellFormed(lines);
    WellFormedBalanced(Blocks(lines), false);
    BlocksErase(lines);
  }

  /** Without list lines, formatList copies every line and puts a newline
      after each: the text comes back with one newline appended. */
  lemma FormatListWithoutLists(text: string)
    requires forall k :: 0 <= k < |Split(text, '\n')| ==> !IsListLine(Split(text, '\n')[k])
    ensures Formatted(text) == text + "\n"
  {
    NoListLines(Split(text, '\n'));
  }

  lemma {:induction false} NoListLines(lines: seq<string>)
    requires |lines| >= 1
    requires forall k :: 0 <= k < |lines| ==> !IsListLine(lines[k])
    ensures Html(Blocks(lines)) == Join(lines, "\n") + "\n"
  {
    if |lines| > 1 {
      NoListLines(lines[1..]);
    }
  }

  /** The grammar's equations, one per kind of line: a list line outside a
      list opens one, inside a list it is an item, anything else closes an
      open list, and a text line outside a list is copied with a newline. */
  lemma HtmlOpenList(l: string, ls: seq<string>)
    requires IsListLine(l)
    ensures Html(Blocks([l] + ls)) == "<ul>" + Html(ListBlock([l] + ls))
  {
    assert ([l] + ls)[0] == l;
    HtmlCons(Open, ListBlock([l] + ls));
  }

  lemma HtmlListItem(l: string, ls: seq<string>)
    requires IsListLine(l)
    ensures Html(ListBlock([l] + ls)) == "<li>" + ItemText(l) + "</li>" + Html(ListBlock(ls))
  {
    assert ([l] + ls)[0] == l && ([l] + ls)[1..] == ls;
    HtmlCons(Item(ItemText(l)), ListBlock(ls));
  }

  lemma HtmlCloseList(ls: seq<string>)
    requires ls == [] || !IsListLine(ls[0])
    ensures Html(ListBlock(ls)) == "</ul>" + Html(Blocks(ls))
  {
    HtmlCons(Close, Blocks(ls));
  }

  lemma HtmlTextLine(l: string, ls: seq<string>)
    requires !IsListLine(l)
    ensures Html(Blocks([l] + ls)) == l + "\n" + Html(Blocks(ls))
  {
    assert ([l] + ls)[0] == l && ([l] + ls)[1..] == ls;
    HtmlCons(Line(l), Blocks(ls));
  }

  lemma ItemLine(l: string, t: string)
    requires l == "* " + t && |t| > 0 && !IsTrimSpace(t[|t| - 1])
    ensures IsListLine(l) && ItemText(l) == t
  {
    assert l[|l| - 1] == t[|t| - 1];
    assert TrimStart(l) == l;
    assert TrimEnd(l) == l;
    assert l[2..] == t;
  }

  /** A one-letter item. */
  lemma ItemChar(l: string, c: char)
    requires l == ['*', ' ', c] && !IsTrimSpace(c)
    ensures IsListLine(l) && ItemText(l) == [c]
  {
    ItemLine(l, [c]);
  }

  /** Two lists with a text line between them stay two lists:
      "* a\n* b\ntext\n* c" gives
      "<ul><li>a</li><li>b</li></ul>text\n<ul><li>c</li></ul>". */
  lemma SeparatedLists(text: string)
    requires text == "* a\n* b\ntext\n* c"
    ensures Formatted(text)
            == "<ul>" + ("<li>a</li>" + ("<li>b</li>" + ("</ul>" + ("text\n" + ("<ul>" + ("<li>c</li>" + "</ul>"))))))
  {
    var lines := ["* a"] + (["* b"] + (["text"] + ["* c"]));
    SeparatedListsSplit(text, lines);
    SeparatedListsLines("* a", "* b", "text", "* c");
    TwoListsHtml("* a", "* b", "text", "* c", lines);
    ItemPieces();
  }

  lemma SeparatedListsLines(la: string, lb: string, lt: string, lc: string)
    requires la == "* a" && lb == "* b" && lt == "text" && lc == "* c"
    ensures IsListLine(la) && ItemText(la) == "a"
    ensures IsListLine(lb) && ItemText(lb) == "b"
    ensures IsListLine(lc) && ItemText(lc) == "c"
    ensures !IsListLine(lt)
  {
    ItemChar(la, 'a');
    ItemChar(lb, 'b');
    ItemChar(lc, 'c');
    assert lt[0] == 't' && lt[|lt| - 1] == 't';
    PlainLine(lt);
  }

  /** A line without spaces at its ends that does not start with '*' is
      not a list line. */
  lemma PlainLine(l: string)
    requires |l| > 0 && l[0] != '*' && !IsTrimSpace(l[0]) && !IsTrimSpace(l[|l| - 1])
    ensures !IsListLine(l)
  {
    assert TrimStart(l) == l;
    assert TrimEnd(l) == l;
  }

  /** The pieces of the example written as the single literals of its
      expected output. */
  lemma ItemPieces()
    ensures "<li>" + "a" + "</li>" == "<li>a</li>"
    ensures "<li>" + "b" + "</li>" == "<li>b</li>"
    ensures "<li>" + "c" + "</li>" == "<li>c</li>"
    ensures "text" + "\n" == "text\n"
  {
  }

  lemma SeparatedListsSplit(text: string, lines: seq<string>)
    requires text == "* a\n* b\ntext\n* c"
    requires lines == ["* a"] + (["* b"] + (["text"] + ["* c"]))
    ensures Split(text, '\n') == lines
  {
    assert lines[1..] == ["* b"] + (["text"] + ["* c"]);
    assert lines[2..] == ["text"] + ["* c"];
    assert lines[3..] == ["* c"];
    assert Join(lines[2..], "\n") == "text" + "\n" + "* c";
    assert Join(lines[1..], "\n") == "* b" + "\n" + ("text" + "\n" + "* c");
    assert Join(lines, "\n") == text;
    SplitJoin(lines, '\n');
  }

  /** Two list lines, a text line and a list line give two lists. */
  lemma TwoListsHtml(a: string, b: string, t: string, c: string, lines: seq<string>)
    requires IsListLine(a) && IsListLine(b) && !IsListLine(t) && IsListLine(c)
    requires lines == [a] + ([b] + ([t] + [c]))
    ensures Html(Blocks(lines))
            == "<ul>" + (("<li>" + ItemText(a) + "</li>") + (("<li>" + ItemText(b) + "</li>") + ("</ul>"
               + (t + "\n" + ("<ul>" + (("<li>" + ItemText(c) + "</li>") + "</ul>"))))))
  {
    TwoItems(a, b, [t] + [c]);
    TextThenItem(t, c);
  }

  /** Two list lines open a list with two items. */
  lemma TwoItems(a: string, b: string, rest: seq<string>)
    requires IsListLine(a) && IsListLine(b)
    ensures Html(Blocks([a] + ([b] + rest)))
            == "<ul>" + (("<li>" + ItemText(a) + "</li>") + (("<li>" + ItemText(b) + "</li>")
               + Html(ListBlock(rest))))
  {
    HtmlOpenList(a, [b] + rest);
    HtmlListItem(a, [b] + rest);
    HtmlListItem(b, rest);
  }

  /** A text line closes the open list, and the list line after it opens
      the next one. */
  lemma TextThenItem(t: string, c: string)
    requires !IsListLine(t) && IsListLine(c)
    ensures Html(ListBlock([t] + [c]))
            == "</ul>" + (t + "\n" + ("<ul>" + (("<li>" + ItemText(c) + "</li>") + "</ul>")))
  {
    var li := "<li>" + ItemText(c) + "</li>";
    HtmlCloseList([]);
    assert Html(Blocks([])) == "";
    var last := Html(ListBlock([]));
    assert last == "</ul>";
    assert [c] == [c] + [];
    HtmlListItem(c, []);
    var list := Html(ListBlock([c]));
    assert list == li + last;
    HtmlOpenList(c, []);
    var second := Html(Blocks([c]));
    assert second == "<ul>" + list;
    HtmlTextLine(t, [c]);
    HtmlCloseList([t] + [c]);
  }
}
