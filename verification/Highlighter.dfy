/** Syntax highlighting: styled spans over a text become, line by line, runs of equally styled characters. */
module Highlighter {
  import opened Options
  import opened Text

  /** No style is the style of text no span covers. */
  type Style = Option<string>

  datatype Span = Span(start: nat, end: nat, style: string)
  datatype Token = Token(text: string, style: Style)

  /** A character with its style. */
  type Cell = (char, Style)

  const LINE_BREAK: Cell := ('\n', None)

  // ---------------------------------------------------------------------------------------------
  // What highlighting means

  predicate Covers(span: Span, p: nat) {
    span.start <= p < span.end
  }

  /** The style of the last span over `p`. */
  function StyleAt(spans: seq<Span>, p: nat): (style: Style)
    ensures style == None <==> forall k | 0 <= k < |spans| :: !Covers(spans[k], p)
    ensures style.Some? ==> exists k | 0 <= k < |spans| && Covers(spans[k], p) && style == Some(spans[k].style) ::
                              forall later | k < later < |spans| :: !Covers(spans[later], p)
  {
    if spans == [] then None
    else if Covers(spans[|spans| - 1], p) then Some(spans[|spans| - 1].style)
    else
      assert spans == spans[..|spans| - 1] + [spans[|spans| - 1]];
      StyleAt(spans[..|spans| - 1], p)
  }

  /** Every character of `text` under its style; a line break has none. */
  function Painted(text: string, spans: seq<Span>): seq<Cell> {
    seq(|text|, p requires 0 <= p < |text| => (text[p], if text[p] == '\n' then None else StyleAt(spans, p)))
  }

  function Cells(t: Token): seq<Cell> {
    seq(|t.text|, i requires 0 <= i < |t.text| => (t.text[i], t.style))
  }

  function Row(tokens: seq<Token>): seq<Cell> {
    if tokens == [] then [] else Cells(tokens[0]) + Row(tokens[1..])
  }

  /** What a list of rows shows when each is ended by a line break. */
  function Page(rows: seq<seq<Token>>): seq<Cell> {
    if rows == [] then [] else Row(rows[0]) + [LINE_BREAK] + Page(rows[1..])
  }

  /** Neighbours differ in style and no token is empty. */
  predicate Maximal(tokens: seq<Token>) {
    && (forall i | 0 <= i < |tokens| :: tokens[i].text != "")
    && (forall i | 0 <= i < |tokens| - 1 :: tokens[i].style != tokens[i + 1].style)
  }

  predicate OneLine(tokens: seq<Token>) {
    forall i | 0 <= i < |tokens| :: Unbroken(tokens[i].text)
  }

  predicate Unbroken(text: string) {
    '\n' !in text
  }

  /** Maximal runs within one line; an empty line is shown as one empty token. */
  predicate Normal(tokens: seq<Token>) {
    OneLine(tokens) && (tokens == [Token("", None)] || (tokens != [] && Maximal(tokens)))
  }

  /** The contract of the highlighter: nothing lost, nothing restyled, runs as long as they can be. */
  predicate Highlights(code: string, spans: seq<Span>, rows: seq<seq<Token>>) {
    Page(rows) == Painted(code + "\n", spans) && forall i | 0 <= i < |rows| :: Normal(rows[i])
  }

  /** The style of a position is that of the last span from its start up to but not including its end. */
  lemma {:induction false} StyleIsLastSpan(spans: seq<Span>, p: nat, k: nat)
    requires k <= |spans| && forall later | k < later < |spans| :: !(spans[later].start <= p < spans[later].end)
    ensures k < |spans| && spans[k].start <= p < spans[k].end ==> StyleAt(spans, p) == Some(spans[k].style)
    ensures (forall j | 0 <= j < |spans| :: p < spans[j].start || spans[j].end <= p) ==> StyleAt(spans, p) == None
  {
    if k < |spans| && spans[k].start <= p < spans[k].end {
      assert Covers(spans[k], p);
    }
  }

  function TextOf(tokens: seq<Token>): string {
    if tokens == [] then "" else tokens[0].text + TextOf(tokens[1..])
  }

  /** The text of the rows, each ended by a line break. */
  function TextOfPage(rows: seq<seq<Token>>): string {
    if rows == [] then "" else TextOf(rows[0]) + "\n" + TextOfPage(rows[1..])
  }

  function Chars(cells: seq<Cell>): string {
    seq(|cells|, i requires 0 <= i < |cells| => cells[i].0)
  }

  lemma {:induction false} RowChars(tokens: seq<Token>)
    ensures Chars(Row(tokens)) == TextOf(tokens)
  {
    if tokens != [] {
      RowChars(tokens[1..]);
      assert Chars(Cells(tokens[0])) == tokens[0].text;
    }
  }

  lemma {:induction false} PageChars(rows: seq<seq<Token>>)
    ensures Chars(Page(rows)) == TextOfPage(rows)
  {
    if rows != [] {
      RowChars(rows[0]);
      PageChars(rows[1..]);
    }
  }

  /** Highlighting loses no character: the tokens, line by line, are the text; and every row is normal. */
  lemma {:induction false} NothingLost(code: string, spans: seq<Span>, rows: seq<seq<Token>>, i: nat)
    requires Highlights(code, spans, rows)
    ensures TextOfPage(rows) == code + "\n"
    ensures i < |rows| ==>
              && (forall k | 0 <= k < |rows[i]| - 1 :: rows[i][k].style != rows[i][k + 1].style)
              && (forall k | 0 <= k < |rows[i]| :: rows[i][k].text == "" ==> rows[i] == [Token("", None)])
  {
    PageChars(rows);
    assert Chars(Painted(code + "\n", spans)) == code + "\n";
  }

  // ---------------------------------------------------------------------------------------------
  // The contract leaves no choice

  lemma {:induction false} RowIsLine(tokens: seq<Token>)
    requires OneLine(tokens)
    ensures forall k | 0 <= k < |Row(tokens)| :: Row(tokens)[k].0 != '\n'
  {
    if tokens != [] {
      RowIsLine(tokens[1..]);
    }
  }

  lemma {:induction false} MaximalRest(tokens: seq<Token>)
    requires tokens != [] && Maximal(tokens)
    ensures Maximal(tokens[1..])
  {
    assert forall i | 0 <= i < |tokens[1..]| :: tokens[1..][i] == tokens[i + 1];
  }

  /** After the first token comes another style, or nothing. */
  lemma {:induction false} FirstRunEnds(tokens: seq<Token>)
    requires tokens != [] && Maximal(tokens)
    ensures var n := |tokens[0].text|;
            n <= |Row(tokens)| && (n < |Row(tokens)| ==> Row(tokens)[n].1 != tokens[0].style)
  {
    if |tokens| > 1 {
      assert tokens[0].style != tokens[0 + 1].style;
      assert Row(tokens[1..])[0] == Cells(tokens[1])[0];
    }
  }

  lemma {:induction false} SameFirstToken(a: seq<Token>, b: seq<Token>)
    requires a != [] && b != [] && Maximal(a) && Maximal(b) && Row(a) == Row(b)
    ensures a[0] == b[0]
  {
    var m, n := |a[0].text|, |b[0].text|;
    FirstRunEnds(a);
    FirstRunEnds(b);
    assert forall k | 0 <= k < m :: Row(a)[k] == (a[0].text[k], a[0].style);
    assert forall k | 0 <= k < n :: Row(b)[k] == (b[0].text[k], b[0].style);
    assert Row(a)[0] == Row(b)[0];
    assert m == n;
    assert forall k | 0 <= k < m :: a[0].text[k] == Row(a)[k].0;
    assert a[0].text == b[0].text;
  }

  lemma {:induction false} MaximalShows(tokens: seq<Token>)
    requires tokens != [] && Maximal(tokens)
    ensures Row(tokens) != []
  {
    assert Row(tokens)[0] == Cells(tokens[0])[0];
  }

  lemma {:induction false} MaximalRunsAreUnique(a: seq<Token>, b: seq<Token>)
    requires Maximal(a) && Maximal(b) && Row(a) == Row(b)
    ensures a == b
  {
    if a != [] && b != [] {
      SameFirstToken(a, b);
      MaximalRest(a);
      MaximalRest(b);
      assert Row(a)[|Cells(a[0])|..] == Row(a[1..]);
      assert Row(b)[|Cells(b[0])|..] == Row(b[1..]);
      MaximalRunsAreUnique(a[1..], b[1..]);
      assert a == [a[0]] + a[1..] && b == [b[0]] + b[1..];
    } else if a != [] {
      MaximalShows(a);
    } else if b != [] {
      MaximalShows(b);
    }
  }

  lemma {:induction false} NormalRowsAreUnique(a: seq<Token>, b: seq<Token>)
    requires Normal(a) && Normal(b) && Row(a) == Row(b)
    ensures a == b
  {
    var none := [Token("", None)];
    assert Row(none) == [] by {
      assert none[1..] == [];
    }
    if a != none {
      MaximalShows(a);
    }
    if b != none {
      MaximalShows(b);
    }
    if a != none && b != none {
      MaximalRunsAreUnique(a, b);
    }
  }

  /** Two highlightings of the same text are the same. */
  lemma {:induction false} HighlightingIsUnique(a: seq<seq<Token>>, b: seq<seq<Token>>)
    requires Page(a) == Page(b)
    requires (forall i | 0 <= i < |a| :: Normal(a[i])) && forall i | 0 <= i < |b| :: Normal(b[i])
    ensures a == b
  {
    if a != [] && b != [] {
      var m, n := |Row(a[0])|, |Row(b[0])|;
      RowIsLine(a[0]);
      RowIsLine(b[0]);
      assert Page(a)[m] == LINE_BREAK && Page(b)[n] == LINE_BREAK;
      assert forall k | 0 <= k < m :: Page(a)[k] == Row(a[0])[k];
      assert forall k | 0 <= k < n :: Page(b)[k] == Row(b[0])[k];
      assert m == n;
      assert Row(a[0]) == Page(a)[..m] && Row(b[0]) == Page(b)[..n];
      NormalRowsAreUnique(a[0], b[0]);
      assert Page(a)[m + 1..] == Page(a[1..]) && Page(b)[n + 1..] == Page(b[1..]);
      HighlightingIsUnique(a[1..], b[1..]);
      assert a == [a[0]] + a[1..] && b == [b[0]] + b[1..];
    }
  }

  // ---------------------------------------------------------------------------------------------
  // Lines

  /** Lines, each with its line break. */
  function Terminated(lines: seq<string>): string {
    if lines == [] then "" else lines[0] + "\n" + Terminated(lines[1..])
  }

  lemma {:induction false} SplitTerminates(code: string)
    ensures Terminated(Split(code, {'\n'})) == code + "\n"
    ensures forall line | line in Split(code, {'\n'}) :: '\n' !in line
  {
    if code == "" {
      assert [""][1..] == [];
    } else {
      SplitTerminates(code[1..]);
      assert code == [code[0]] + code[1..];
      var rest := Split(code[1..], {'\n'});
      if code[0] == '\n' {
        assert ([""] + rest)[1..] == rest;
      } else {
        assert Split(code, {'\n'})[1..] == rest[1..];
        assert [code[0]] + (rest[0] + "\n" + Terminated(rest[1..]))
               == [code[0]] + rest[0] + "\n" + Terminated(rest[1..]);
      }
    }
  }

  lemma {:induction false} TerminatedConcat(a: seq<string>, b: seq<string>)
    ensures Terminated(a + b) == Terminated(a) + Terminated(b)
  {
    if a == [] {
      assert a + b == b;
    } else {
      assert (a + b)[1..] == a[1..] + b;
      TerminatedConcat(a[1..], b);
    }
  }

  /** Where line `i` sits in the text. */
  lemma {:induction false} LineAt(lines: seq<string>, i: nat)
    requires i < |lines|
    ensures var at, text := |Terminated(lines[..i])|, Terminated(lines);
            && at + |lines[i]| < |text|
            && |Terminated(lines[..i + 1])| == at + |lines[i]| + 1
            && text[at..at + |lines[i]|] == lines[i] && text[at + |lines[i]|] == '\n'
  {
    assert lines == lines[..i] + lines[i..] && lines[i..][1..] == lines[i + 1..];
    TerminatedConcat(lines[..i], lines[i..]);
    assert lines[..i + 1] == lines[..i] + [lines[i]] && [lines[i]][1..] == [];
    TerminatedConcat(lines[..i], [lines[i]]);
  }

  // ---------------------------------------------------------------------------------------------
  // The highlighter

  lemma {:induction false} RowConcat(a: seq<Token>, b: seq<Token>)
    ensures Row(a + b) == Row(a) + Row(b)
  {
    if a == [] {
      assert a + b == b;
    } else {
      assert (a + b)[1..] == a[1..] + b;
      RowConcat(a[1..], b);
    }
  }

  lemma {:induction false} RowSnoc(tokens: seq<Token>, t: Token)
    ensures Row(tokens + [t]) == Row(tokens) + Cells(t)
  {
    RowConcat(tokens, [t]);
    assert [t][1..] == [];
  }

  lemma {:induction false} PageSnoc(rows: seq<seq<Token>>, row: seq<Token>)
    ensures Page(rows + [row]) == Page(rows) + Row(row) + [LINE_BREAK]
  {
    if rows == [] {
      assert rows + [row] == [row] && [row][1..] == [];
    } else {
      assert (rows + [row])[1..] == rows[1..] + [row];
      PageSnoc(rows[1..], row);
    }
  }

  /** The style of every position, spans painted in order over a map of nothing. */
  method StyleMap(length: nat, spans: seq<Span>) returns (styleMap: array<Style>)
    ensures fresh(styleMap) && styleMap.Length == length
    ensures forall p | 0 <= p < length :: styleMap[p] == StyleAt(spans, p)
  {
    styleMap := new Style[length](_ => None);
    for k := 0 to |spans|
      invariant forall p | 0 <= p < length :: styleMap[p] == StyleAt(spans[..k], p)
    {
      var span := spans[k];
      assert spans[..k + 1][..k] == spans[..k] && spans[..k + 1][k] == span;
      var i := span.start;
      while i < span.end && i < styleMap.Length
        invariant span.start <= i && (i == span.start || i <= span.end)
        invariant forall p | 0 <= p < length ::
            styleMap[p] == if span.start <= p < i then Some(span.style) else StyleAt(spans[..k], p)
      {
        styleMap[i] := Some(span.style);
        i := i + 1;
      }
      assert forall p | 0 <= p < length :: styleMap[p] == StyleAt(spans[..k + 1], p);
    }
    assert spans[..|spans|] == spans;
  }

  /** The first `n` characters of a line that starts at `pos`. */
  function Stretch(line: string, styles: seq<Style>, pos: nat, n: nat): seq<Cell>
    requires n <= |line| && pos + n <= |styles|
  {
    seq(n, i requires 0 <= i < n => (line[i], styles[pos + i]))
  }

  lemma {:induction false} StretchNext(line: string, styles: seq<Style>, pos: nat, n: nat)
    requires n < |line| && pos + n < |styles|
    ensures Stretch(line, styles, pos, n + 1) == Stretch(line, styles, pos, n) + [(line[n], styles[pos + n])]
  {
  }

  lemma {:induction false} CellsNext(t: Token, c: char)
    ensures Cells(t.(text := t.text + [c])) == Cells(t) + [(c, t.style)]
    ensures Unbroken(t.text) && c != '\n' ==> Unbroken(t.text + [c])
  {
  }

  lemma {:induction false} NoCells(style: Style)
    ensures Cells(Token("", style)) == [] && Row([]) == []
  {
  }

  lemma {:induction false} Regroup(a: seq<Cell>, b: seq<Cell>, c: seq<Cell>)
    ensures a + (b + c) == a + b + c
  {
  }

  lemma {:induction false} PushToken(row: seq<Token>, t: Token)
    requires Maximal(row) && OneLine(row) && t.text != "" && Unbroken(t.text)
    requires row != [] ==> row[|row| - 1].style != t.style
    ensures Maximal(row + [t]) && OneLine(row + [t]) && Row(row + [t]) == Row(row) + Cells(t)
  {
    RowSnoc(row, t);
  }

  method LineTokens(line: string, styleMap: array<Style>, pos: nat) returns (row: seq<Token>)
    requires '\n' !in line && pos + |line| <= styleMap.Length
    ensures Normal(row)
    ensures Row(row) == Stretch(line, styleMap[..], pos, |line|)
  {
    ghost var styles := styleMap[..];
    row := [];
    if |line| == 0 {
      row := [Token("", None)];
      assert row[1..] == [];
      return;
    }
    var currentToken := Token("", styleMap[pos]);
    NoCells(currentToken.style);
    assert Stretch(line, styles, pos, 0) == [];
    assert Unbroken("");
    hide Row, Cells, Maximal, OneLine, Stretch, Unbroken;
    for i := 0 to |line|
      invariant Maximal(row) && OneLine(row) && Unbroken(currentToken.text)
      invariant row != [] ==> row[|row| - 1].style != currentToken.style
      invariant currentToken.text == "" ==> i == 0 && row == []
      invariant i == 0 ==> currentToken.style == styleMap[pos]
      invariant Row(row) + Cells(currentToken) == Stretch(line, styles, pos, i)
    {
      var charStyle := styleMap[pos + i];
      StretchNext(line, styles, pos, i);
      assert charStyle == styles[pos + i] && line[i] in line;
      CellsNext(currentToken, line[i]);
      Regroup(Row(row), Cells(currentToken), [(line[i], charStyle)]);
      if charStyle == currentToken.style {
        currentToken := currentToken.(text := currentToken.text + [line[i]]);
      } else {
        if currentToken.text != "" {
          PushToken(row, currentToken);
          row := row + [currentToken];
        }
        CellsNext(Token("", charStyle), line[i]);
        assert "" + [line[i]] == [line[i]];
        NoCells(charStyle);
        currentToken := Token([line[i]], charStyle);
      }
    }
    if currentToken.text != "" {
      PushToken(row, currentToken);
      row := row + [currentToken];
    }
    assert Normal(row);
  }

  /** A line with its own styles is the stretch of the painted text it comes from, up to its line break. */
  lemma {:induction false} LinePainted(text: string, spans: seq<Span>, line: string, pos: nat, row: seq<Cell>)
    requires pos + |line| < |text| && text[pos..pos + |line|] == line && text[pos + |line|] == '\n' && '\n' !in line
    requires |row| == |line| && forall i | 0 <= i < |line| :: row[i] == (line[i], StyleAt(spans, pos + i))
    ensures Painted(text, spans)[..pos] + row + [LINE_BREAK] == Painted(text, spans)[..pos + |line| + 1]
  {
    assert forall i | 0 <= i < |line| :: line[i] == text[pos..pos + |line|][i] && line[i] in line;
  }

  /** The first `i` lines are done: `rows` shows the text up to where line `i` starts. */
  predicate Done(code: string, spans: seq<Span>, lines: seq<string>, rows: seq<seq<Token>>, i: nat, pos: nat) {
    && i <= |lines| && pos == |Terminated(lines[..i])| <= |code| + 1
    && Page(rows) == Painted(code + "\n", spans)[..pos]
    && forall k | 0 <= k < |rows| :: Normal(rows[k])
  }

  lemma {:induction false} DoneNext(
    code: string, spans: seq<Span>, lines: seq<string>, rows: seq<seq<Token>>, i: nat, pos: nat, row: seq<Token>)
    requires Done(code, spans, lines, rows, i, pos) && i < |lines| && lines == Split(code, {'\n'}) && Normal(row)
    requires |Row(row)| == |lines[i]|
    requires forall k | 0 <= k < |lines[i]| :: Row(row)[k] == (lines[i][k], StyleAt(spans, pos + k))
    ensures Done(code, spans, lines, rows + [row], i + 1, pos + |lines[i]| + 1)
  {
    hide Row, Painted, Terminated, StyleAt, Split, Normal;
    SplitTerminates(code);
    assert lines[i] in lines;
    LineAt(lines, i);
    LinePainted(code + "\n", spans, lines[i], pos, Row(row));
    PageSnoc(rows, row);
  }

  lemma {:induction false} DoneEnds(code: string, spans: seq<Span>, lines: seq<string>, rows: seq<seq<Token>>, pos: nat)
    requires lines == Split(code, {'\n'}) && Done(code, spans, lines, rows, |lines|, pos)
    ensures Highlights(code, spans, rows)
  {
    SplitTerminates(code);
    assert lines[..|lines|] == lines;
  }

  lemma {:induction false} Unstyled(line: string)
    requires '\n' !in line
    ensures var row := [Token(line, None)];
            Normal(row) && |Row(row)| == |line| && forall k | 0 <= k < |line| :: Row(row)[k] == (line[k], None)
  {
    var row := [Token(line, None)];
    assert row[1..] == [];
    assert line == "" ==> row == [Token("", None)];
  }

  lemma {:induction false} StretchStyled(spans: seq<Span>, line: string, styles: seq<Style>, pos: nat)
    requires pos + |line| <= |styles| && forall p | 0 <= p < |styles| :: styles[p] == StyleAt(spans, p)
    ensures var row := Stretch(line, styles, pos, |line|);
            |row| == |line| && forall k | 0 <= k < |line| :: row[k] == (line[k], StyleAt(spans, pos + k))
  {
  }

  /** Without a parser every line is one unstyled token. */
  method PlainRows(code: string) returns (result: seq<seq<Token>>)
    ensures Highlights(code, [], result)
  {
    var lines := Split(code, {'\n'});
    SplitTerminates(code);
    result := [];
    ghost var pos: nat := 0;
    for lineIndex := 0 to |lines|
      invariant Done(code, [], lines, result, lineIndex, pos)
    {
      hide Done, Row, Normal, Split;
      assert lines[lineIndex] in lines;
      Unstyled(lines[lineIndex]);
      DoneNext(code, [], lines, result, lineIndex, pos, [Token(lines[lineIndex], None)]);
      result := result + [[Token(lines[lineIndex], None)]];
      pos := pos + |lines[lineIndex]| + 1;
    }
    DoneEnds(code, [], lines, result, pos);
  }

  /** A missing parser is as good as one that finds nothing to style. */
  method HighlightCode(code: string, parsed: Option<seq<Span>>) returns (result: seq<seq<Token>>)
    ensures Highlights(code, if parsed.Some? then parsed.value else [], result)
  {
    if parsed.None? {
      result := PlainRows(code);
      return;
    }
    var spans := parsed.value;
    var lines := Split(code, {'\n'});
    SplitTerminates(code);
    var styleMap := StyleMap(|code|, spans);
    result := [];
    var pos: nat := 0;
    for lineIndex := 0 to |lines|
      invariant Done(code, spans, lines, result, lineIndex, pos)
      invariant forall p | 0 <= p < |code| :: styleMap[p] == StyleAt(spans, p)
    {
      LineEndsInText(code, lines, lineIndex, pos);
      hide Done, Row, Normal, StyleAt, Split, Stretch;
      var row := LineTokens(lines[lineIndex], styleMap, pos);
      StretchStyled(spans, lines[lineIndex], styleMap[..], pos);
      DoneNext(code, spans, lines, result, lineIndex, pos, row);
      result := result + [row];
      pos := pos + |lines[lineIndex]| + 1;
    }
    DoneEnds(code, spans, lines, result, pos);
  }

  lemma {:induction false} LineEndsInText(code: string, lines: seq<string>, i: nat, pos: nat)
    requires lines == Split(code, {'\n'}) && i < |lines| && pos == |Terminated(lines[..i])|
    ensures pos + |lines[i]| <= |code| && '\n' !in lines[i]
  {
    SplitTerminates(code);
    LineAt(lines, i);
    assert lines[i] in lines;
  }
}
