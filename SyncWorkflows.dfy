/**
 * The local logic of the workflow-sync script: the single-pass markdown to
 * block classifier, and the split of the resulting blocks into the page
 * creation request (at most 90 children) and follow-up append requests (at
 * most 100 children each).
 */
module SyncWorkflows {
  import opened Wrappers
  import opened Text

  /** The block records the classifier produces, one variant per block type it emits. */
  datatype Block =
    | Heading1(text: string)
    | Heading2(text: string)
    | Heading3(text: string)
    | BulletedItem(text: string)
    | NumberedItem(text: string)
    | Code(language: string, text: string)
    | Paragraph(text: string)

  const FENCE: string := "```"
  const DEFAULT_LANGUAGE: string := "plain text"
  /** Blocks sent with the page creation request. */
  const INITIAL_CHILDREN_LIMIT: nat := 90
  /** Blocks sent with each follow-up append request. */
  const APPEND_BATCH_SIZE: nat := 100

  function Min(a: nat, b: nat): nat {
    if a <= b then a else b
  }

  // ---------------------------------------------------------------------------
  // Lines: markdown.split('\n') and lines.join('\n')
  // ---------------------------------------------------------------------------

  predicate NoNewline(line: string) {
    '\n' !in line
  }

  /** `s.split('\n')`: the pieces between line feeds, always at least one. */
  function SplitLines(s: string): (lines: seq<string>)
    ensures |lines| >= 1
    ensures forall k :: 0 <= k < |lines| ==> NoNewline(lines[k])
  {
    if s == [] then [""]
    else
      var rest := SplitLines(s[1..]);
      if s[0] == '\n' then [""] + rest
      else [[s[0]] + rest[0]] + rest[1..]
  }

  /** `lines.join('\n')`. */
  function JoinLines(lines: seq<string>): string
  {
    if |lines| == 0 then ""
    else if |lines| == 1 then lines[0]
    else lines[0] + "\n" + JoinLines(lines[1..])
  }

  /** Joining the pieces of a split gives back the text. */
  lemma {:induction false} JoinSplitLines(s: string)
    ensures JoinLines(SplitLines(s)) == s
  {
    if s != [] {
      var rest := SplitLines(s[1..]);
      JoinSplitLines(s[1..]);
      if s[0] == '\n' {
        assert ([""] + rest)[1..] == rest;
      } else if |rest| > 1 {
        var lines := [[s[0]] + rest[0]] + rest[1..];
        assert lines[1..] == rest[1..];
        calc {
          JoinLines(lines);
          ([s[0]] + rest[0]) + "\n" + JoinLines(rest[1..]);
          [s[0]] + (rest[0] + "\n" + JoinLines(rest[1..]));
          [s[0]] + JoinLines(rest);
          { assert s == [s[0]] + s[1..]; }
          s;
        }
      } else {
        assert s == [s[0]] + s[1..];
      }
    }
  }

  /** Splitting a line without line feeds that is followed by more text. */
  lemma {:induction false} SplitLinesOfPrefix(line: string, tail: string)
    requires NoNewline(line)
    ensures SplitLines(line + tail) == [line + SplitLines(tail)[0]] + SplitLines(tail)[1..]
  {
    if line != [] {
      assert (line + tail)[1..] == line[1..] + tail;
      SplitLinesOfPrefix(line[1..], tail);
      assert [line[0]] + (line[1..] + SplitLines(tail)[0]) == line + SplitLines(tail)[0];
    } else {
      var t := SplitLines(tail);
      assert line + tail == tail;
      assert t == [t[0]] + t[1..];
      assert line + t[0] == t[0];
    }
  }

  /** Splitting the joined lines gives back the lines, when none holds a line feed. */
  lemma {:induction false} SplitJoinLines(lines: seq<string>)
    requires |lines| >= 1
    requires forall k :: 0 <= k < |lines| ==> NoNewline(lines[k])
    ensures SplitLines(JoinLines(lines)) == lines
  {
    if |lines| == 1 {
      SplitLinesOfPrefix(lines[0], "");
      assert lines[0] + "" == lines[0];
    } else {
      var tail := JoinLines(lines[1..]);
      SplitJoinLines(lines[1..]);
      assert lines[0] + "\n" + tail == lines[0] + ("\n" + tail);
      SplitLinesOfPrefix(lines[0], "\n" + tail);
      assert ("\n" + tail)[1..] == tail;
      assert SplitLines("\n" + tail) == [""] + lines[1..];
      assert lines[0] + "" == lines[0];
    }
  }

  // ---------------------------------------------------------------------------
  // Classifying one line outside a fence
  // ---------------------------------------------------------------------------

  /** Length of the run of ASCII digits at the start of `s`. */
  function LeadingDigits(s: string): (n: nat)
    ensures n <= |s|
    ensures forall i :: 0 <= i < n ==> IsDigit(s[i])
    ensures n < |s| ==> !IsDigit(s[n])
  {
    if s != [] && IsDigit(s[0]) then 1 + LeadingDigits(s[1..]) else 0
  }

  /** The first `n` characters of `line` are one or more digits, a dot and one whitespace character. */
  predicate IsNumberedMarker(line: string, n: nat) {
    3 <= n <= |line| &&
    (forall i :: 0 <= i < n - 2 ==> IsDigit(line[i])) &&
    line[n - 2] == '.' && IsSpace(line[n - 1])
  }

  /** Length of the prefix the pattern /^\d+\.\s/ matches, or 0 when it does not match. */
  function NumberedMarkerLength(line: string): (n: nat)
    ensures n == 0 || IsNumberedMarker(line, n)
    ensures forall m: nat :: IsNumberedMarker(line, m) ==> m == n
  {
    var d := LeadingDigits(line);
    if 0 < d && d + 1 < |line| && line[d] == '.' && IsSpace(line[d + 1]) then d + 2 else 0
  }

  /**
   * The block a line outside a fence yields, if any: the first rule that
   * matches among "# ", "## ", "### ", "- " or "* ", a numbered-list marker,
   * and any other text that is neither blank nor a "---" rule. Each variant
   * keeps the line with its marker removed.
   */
  function ClassifyLine(line: string): Option<Block>
  {
    if StartsWith(line, "# ") then Some(Heading1(line[2..]))
    else if StartsWith(line, "## ") then Some(Heading2(line[3..]))
    else if StartsWith(line, "### ") then Some(Heading3(line[4..]))
    else if StartsWith(line, "- ") || StartsWith(line, "* ") then Some(BulletedItem(line[2..]))
    else if NumberedMarkerLength(line) > 0 then Some(NumberedItem(line[NumberedMarkerLength(line)..]))
    else if Trim(line) != "" && !StartsWith(line, "---") then Some(Paragraph(line))
    else None
  }

  /**
   * What each classification means: a heading or bullet is exactly its
   * marker followed by the block text, a numbered item is its matched marker
   * followed by the text, a paragraph is the whole line, and a line yields no
   * block exactly when it is blank or starts with "---". The markers exclude
   * each other, so the order of the rules never decides between two of them.
   */
  lemma ClassifyLineMeaning(line: string)
    ensures var r := ClassifyLine(line);
            (r.Some? ==> !r.value.Code?) &&
            ((r.Some? && r.value.Heading1?) <==> StartsWith(line, "# ")) &&
            (r.Some? && r.value.Heading1? ==> line == "# " + r.value.text) &&
            ((r.Some? && r.value.Heading2?) <==> StartsWith(line, "## ")) &&
            (r.Some? && r.value.Heading2? ==> line == "## " + r.value.text) &&
            ((r.Some? && r.value.Heading3?) <==> StartsWith(line, "### ")) &&
            (r.Some? && r.value.Heading3? ==> line == "### " + r.value.text) &&
            ((r.Some? && r.value.BulletedItem?) <==> StartsWith(line, "- ") || StartsWith(line, "* ")) &&
            (r.Some? && r.value.BulletedItem? ==> line == "- " + r.value.text || line == "* " + r.value.text) &&
            ((r.Some? && r.value.NumberedItem?) <==> NumberedMarkerLength(line) > 0) &&
            (r.Some? && r.value.NumberedItem? ==> line == line[..NumberedMarkerLength(line)] + r.value.text) &&
            (r.Some? && r.value.Paragraph? ==> r.value.text == line) &&
            (r.None? <==> IsBlank(line) || StartsWith(line, "---"))
  {
    ClassifiedHeadings(line);
    ClassifiedItems(line);
    ClassifiedParagraphs(line);
  }

  /** The three heading rules of `ClassifyLineMeaning`. */
  lemma ClassifiedHeadings(line: string)
    ensures var r := ClassifyLine(line);
            ((r.Some? && r.value.Heading1?) <==> StartsWith(line, "# ")) &&
            (r.Some? && r.value.Heading1? ==> line == "# " + r.value.text) &&
            ((r.Some? && r.value.Heading2?) <==> StartsWith(line, "## ")) &&
            (r.Some? && r.value.Heading2? ==> line == "## " + r.value.text) &&
            ((r.Some? && r.value.Heading3?) <==> StartsWith(line, "### ")) &&
            (r.Some? && r.value.Heading3? ==> line == "### " + r.value.text)
  {
    MarkersExclusive(line);
    if StartsWith(line, "# ") {
      assert line == line[..2] + line[2..];
    } else if StartsWith(line, "## ") {
      assert line == line[..3] + line[3..];
    } else if StartsWith(line, "### ") {
      assert line == line[..4] + line[4..];
    }
  }

  /** The bullet and numbered rules of `ClassifyLineMeaning`. */
  lemma ClassifiedItems(line: string)
    ensures var r := ClassifyLine(line);
            ((r.Some? && r.value.BulletedItem?) <==> StartsWith(line, "- ") || StartsWith(line, "* ")) &&
            (r.Some? && r.value.BulletedItem? ==> line == "- " + r.value.text || line == "* " + r.value.text) &&
            ((r.Some? && r.value.NumberedItem?) <==> NumberedMarkerLength(line) > 0) &&
            (r.Some? && r.value.NumberedItem? ==> line == line[..NumberedMarkerLength(line)] + r.value.text)
  {
    MarkersExclusive(line);
    if StartsWith(line, "# ") || StartsWith(line, "## ") || StartsWith(line, "### ") {
    } else if StartsWith(line, "- ") || StartsWith(line, "* ") {
      assert line == line[..2] + line[2..];
    } else if NumberedMarkerLength(line) > 0 {
      var n := NumberedMarkerLength(line);
      assert line == line[..n] + line[n..];
    }
  }

  /** The paragraph rule of `ClassifyLineMeaning`, and the lines that yield nothing. */
  lemma ClassifiedParagraphs(line: string)
    ensures var r := ClassifyLine(line);
            (r.Some? ==> !r.value.Code?) &&
            (r.Some? && r.value.Paragraph? ==> r.value.text == line) &&
            (r.None? <==> IsBlank(line) || StartsWith(line, "---"))
  {
    MarkersExclusive(line);
  }

  /**
   * The line prefixes the rules test exclude each other (apart from "- "
   * and "* ", which share a rule): they differ in their first three
   * characters, a numbered marker starts with a digit, and a blank line with
   * a space.
   */
  lemma MarkersExclusive(line: string)
    ensures StartsWith(line, "# ") ==> !StartsWith(line, "## ") && !StartsWith(line, "### ")
    ensures StartsWith(line, "## ") ==> !StartsWith(line, "### ")
    ensures StartsWith(line, "# ") || StartsWith(line, "## ") || StartsWith(line, "### ") ==>
              !StartsWith(line, "- ") && !StartsWith(line, "* ") && !StartsWith(line, "---") &&
              NumberedMarkerLength(line) == 0 && !IsBlank(line)
    ensures StartsWith(line, "- ") || StartsWith(line, "* ") ==>
              !StartsWith(line, "---") && NumberedMarkerLength(line) == 0 && !IsBlank(line)
    ensures StartsWith(line, "---") ==> NumberedMarkerLength(line) == 0 && !IsBlank(line)
    ensures NumberedMarkerLength(line) > 0 ==> !IsBlank(line)
  {
    assert StartsWith(line, "# ") ==> line[0] == '#' && line[1] == ' ';
    assert StartsWith(line, "## ") ==> line[0] == '#' && line[1] == '#' && line[2] == ' ';
    assert StartsWith(line, "### ") ==> line[0] == '#' && line[1] == '#' && line[2] == '#';
    assert StartsWith(line, "- ") ==> line[0] == '-' && line[1] == ' ';
    assert StartsWith(line, "* ") ==> line[0] == '*';
    assert StartsWith(line, "---") ==> line[0] == '-' && line[1] == '-';
    assert NumberedMarkerLength(line) > 0 ==> IsDigit(line[0]);
  }

  // ---------------------------------------------------------------------------
  // The pass over all lines
  // ---------------------------------------------------------------------------

  /** The variables the loop carries from line to line. */
  datatype ParseState = ParseState(inCodeBlock: bool, codeLanguage: string, codeBlockContent: seq<string>)

  /** A state reached after some lines, and the blocks emitted so far. */
  datatype Scan = Scan(state: ParseState, blocks: seq<Block>)

  const InitialState: ParseState := ParseState(false, DEFAULT_LANGUAGE, [])

  /** Outside any fence, with nothing accumulated. */
  predicate Outside(st: ParseState) {
    !st.inCodeBlock && st.codeBlockContent == []
  }

  /** The language of an opening fence: the trimmed text after the three backticks, or "plain text". */
  function FenceLanguage(line: string): string
    requires StartsWith(line, FENCE)
  {
    var annotation := Trim(line[3..]);
    if annotation == "" then DEFAULT_LANGUAGE else annotation
  }

  /**
   * One iteration of the loop: a fence line toggles the fence (and a closing
   * fence emits the accumulated lines as one code block if there are any), a
   * line inside a fence is accumulated, any other line is classified.
   */
  function Step(st: ParseState, line: string): (r: Scan)
    ensures |r.blocks| <= 1
    ensures StartsWith(line, FENCE) ==> r.state.inCodeBlock == !st.inCodeBlock
    ensures !StartsWith(line, FENCE) ==> r.state.inCodeBlock == st.inCodeBlock
    ensures r.blocks != [] && r.blocks[0].Code? ==> st.inCodeBlock && StartsWith(line, FENCE)
    ensures st.inCodeBlock && !StartsWith(line, FENCE) ==> r.blocks == []
  {
    if StartsWith(line, FENCE) then
      if st.inCodeBlock then
        var emitted := if |st.codeBlockContent| > 0
                       then [Code(st.codeLanguage, JoinLines(st.codeBlockContent))] else [];
        Scan(ParseState(false, st.codeLanguage, []), emitted)
      else
        Scan(ParseState(true, FenceLanguage(line), st.codeBlockContent), [])
    else if st.inCodeBlock then
      Scan(st.(codeBlockContent := st.codeBlockContent + [line]), [])
    else
      Scan(st, OptionToSeq(ClassifyLine(line)))
  }

  /** The loop over `lines`, started in state `st`. */
  function RunFrom(st: ParseState, lines: seq<string>): Scan
  {
    FoldLines(Step, st, lines)
  }

  /** A loop over `lines` whose iteration is `step`, started in state `st`. */
  function FoldLines(step: (ParseState, string) -> Scan, st: ParseState, lines: seq<string>): Scan
    decreases |lines|
  {
    if lines == [] then Scan(st, [])
    else
      var first := step(st, lines[0]);
      var rest := FoldLines(step, first.state, lines[1..]);
      Scan(rest.state, first.blocks + rest.blocks)
  }

  /** The blocks `parseMarkdownToBlocks` returns. */
  function Parse(markdown: string): seq<Block>
  {
    RunFrom(InitialState, SplitLines(markdown)).blocks
  }

  /**
   * The output is append-only: the blocks of a text are the blocks of its
   * first part followed by the blocks of the rest, so blocks keep the order
   * of their lines.
   */
  lemma {:induction false} ParseIsAppendOnly(st: ParseState, xs: seq<string>, ys: seq<string>)
    ensures var a := RunFrom(st, xs);
            var b := RunFrom(a.state, ys);
            RunFrom(st, xs + ys) == Scan(b.state, a.blocks + b.blocks)
  {
    FoldIsAppendOnly(Step, st, xs, ys);
  }

  /** Whatever one iteration does, a loop over two parts is the loop over the first then the second. */
  lemma {:induction false} FoldIsAppendOnly(step: (ParseState, string) -> Scan, st: ParseState,
                                            xs: seq<string>, ys: seq<string>)
    ensures var a := FoldLines(step, st, xs);
            var b := FoldLines(step, a.state, ys);
            FoldLines(step, st, xs + ys) == Scan(b.state, a.blocks + b.blocks)
    decreases |xs|
  {
    if xs == [] {
      assert xs + ys == ys;
    } else {
      var first := step(st, xs[0]);
      assert (xs + ys)[0] == xs[0];
      assert (xs + ys)[1..] == xs[1..] + ys;
      FoldIsAppendOnly(step, first.state, xs[1..], ys);
      var a := FoldLines(step, first.state, xs[1..]);
      var b := FoldLines(step, a.state, ys);
      assert first.blocks + (a.blocks + b.blocks) == (first.blocks + a.blocks) + b.blocks;
    }
  }

  /** Running over one more line is one more step. */
  lemma RunFromSnoc(st: ParseState, lines: seq<string>, line: string)
    ensures var before := RunFrom(st, lines);
            var last := Step(before.state, line);
            RunFrom(st, lines + [line]) == Scan(last.state, before.blocks + last.blocks)
  {
    FoldSnoc(Step, st, lines, line);
  }

  lemma FoldSnoc(step: (ParseState, string) -> Scan, st: ParseState, lines: seq<string>, line: string)
    ensures var before := FoldLines(step, st, lines);
            var last := step(before.state, line);
            FoldLines(step, st, lines + [line]) == Scan(last.state, before.blocks + last.blocks)
  {
    FoldIsAppendOnly(step, st, lines, [line]);
    var before := FoldLines(step, st, lines);
    var last := step(before.state, line);
    assert [line][1..] == [];
    assert FoldLines(step, before.state, [line]) == Scan(last.state, last.blocks + []);
    assert last.blocks + [] == last.blocks;
  }

  /** At most one block per line. */
  lemma {:induction false} BlocksNeverExceedLines(st: ParseState, lines: seq<string>)
    ensures |RunFrom(st, lines).blocks| <= |lines|
    decreases |lines|
  {
    if lines != [] {
      BlocksNeverExceedLines(Step(st, lines[0]).state, lines[1..]);
    }
  }

  /** Nothing is accumulated while outside a fence, in every reachable state. */
  predicate Consistent(st: ParseState) {
    !st.inCodeBlock ==> st.codeBlockContent == []
  }

  lemma {:induction false} RunFromKeepsConsistent(st: ParseState, lines: seq<string>)
    requires Consistent(st)
    ensures Consistent(RunFrom(st, lines).state)
    decreases |lines|
  {
    if lines != [] {
      RunFromKeepsConsistent(Step(st, lines[0]).state, lines[1..]);
    }
  }

  predicate NoFenceLines(lines: seq<string>) {
    forall k :: 0 <= k < |lines| ==> !StartsWith(lines[k], FENCE)
  }

  /** The reference reading of fence-free text: each line classified on its own, in order. */
  function ClassifyAll(lines: seq<string>): seq<Block>
  {
    if lines == [] then [] else OptionToSeq(ClassifyLine(lines[0])) + ClassifyAll(lines[1..])
  }

  /** A line that yields a block outside a fence: neither blank nor a "---" rule. */
  predicate IsContentLine(line: string) {
    !IsBlank(line) && !StartsWith(line, "---")
  }

  function CountContentLines(lines: seq<string>): nat
  {
    if lines == [] then 0 else (if IsContentLine(lines[0]) then 1 else 0) + CountContentLines(lines[1..])
  }

  /** Without fences, the pass classifies every line on its own and keeps their order. */
  lemma {:induction false} UnfencedLinesClassifiedInOrder(st: ParseState, lines: seq<string>)
    requires Outside(st)
    requires NoFenceLines(lines)
    ensures RunFrom(st, lines) == Scan(st, ClassifyAll(lines))
    decreases |lines|
  {
    if lines != [] {
      UnfencedLinesClassifiedInOrder(st, lines[1..]);
    }
  }

  /** Without fences, there is exactly one block per line that is neither blank nor a rule. */
  lemma {:induction false} OneBlockPerContentLine(lines: seq<string>)
    ensures |ClassifyAll(lines)| == CountContentLines(lines)
  {
    if lines != [] {
      ClassifyLineMeaning(lines[0]);
      OneBlockPerContentLine(lines[1..]);
    }
  }

  /** Inside a fence, lines that do not start with the fence marker are only accumulated. */
  lemma {:induction false} FenceAccumulates(st: ParseState, body: seq<string>)
    requires st.inCodeBlock
    requires NoFenceLines(body)
    ensures RunFrom(st, body) == Scan(st.(codeBlockContent := st.codeBlockContent + body), [])
    decreases |body|
  {
    if body == [] {
      assert st.codeBlockContent + body == st.codeBlockContent;
    } else {
      var next := st.(codeBlockContent := st.codeBlockContent + [body[0]]);
      FenceAccumulates(next, body[1..]);
      assert next.codeBlockContent + body[1..] == st.codeBlockContent + body;
    }
  }

  /**
   * A fence pair yields exactly one code block holding the enclosed lines
   * joined with line feeds, in the language of the opening line; a pair that
   * encloses no line yields nothing. Any line starting with the fence marker
   * closes, whatever follows the marker.
   */
  lemma FencedRegionYieldsOneCodeBlock(st: ParseState, open: string, body: seq<string>, close: string)
    requires Outside(st)
    requires StartsWith(open, FENCE) && StartsWith(close, FENCE)
    requires NoFenceLines(body)
    ensures var lang := FenceLanguage(open);
            RunFrom(st, [open] + body + [close]) ==
              Scan(ParseState(false, lang, []), if body == [] then [] else [Code(lang, JoinLines(body))])
  {
    var lang := FenceLanguage(open);
    UnterminatedFenceEmitsNothing(st, open, body);
    RunFromSnoc(st, [open] + body, close);
    var last := Step(ParseState(true, lang, body), close);
    assert last == Scan(ParseState(false, lang, []), if body == [] then [] else [Code(lang, JoinLines(body))]);
    assert [] + last.blocks == last.blocks;
  }

  /** The text of a code block splits back into exactly the lines of its fence. */
  lemma CodeBlockKeepsItsLines(st: ParseState, open: string, body: seq<string>, close: string)
    requires Outside(st)
    requires StartsWith(open, FENCE) && StartsWith(close, FENCE)
    requires NoFenceLines(body) && body != []
    requires forall k :: 0 <= k < |body| ==> NoNewline(body[k])
    ensures var blocks := RunFrom(st, [open] + body + [close]).blocks;
            |blocks| == 1 && blocks[0].Code? && SplitLines(blocks[0].text) == body
  {
    FencedRegionYieldsOneCodeBlock(st, open, body, close);
    SplitJoinLines(body);
  }

  /**
   * An opening fence that is never closed loses its lines: they are
   * accumulated, and the pass ends without emitting them.
   */
  lemma UnterminatedFenceEmitsNothing(st: ParseState, open: string, body: seq<string>)
    requires Outside(st)
    requires StartsWith(open, FENCE)
    requires NoFenceLines(body)
    ensures RunFrom(st, [open] + body) == Scan(ParseState(true, FenceLanguage(open), body), [])
  {
    var fenceOpen := ParseState(true, FenceLanguage(open), []);
    ParseIsAppendOnly(st, [open], body);
    FenceAccumulates(fenceOpen, body);
    assert [] + body == body;
  }

  /** Whatever precedes an unterminated fence, the document's blocks are those of the lines before it. */
  lemma UnterminatedFenceIsDropped(before: seq<string>, open: string, body: seq<string>)
    requires !RunFrom(InitialState, before).state.inCodeBlock
    requires StartsWith(open, FENCE)
    requires NoFenceLines(body)
    ensures RunFrom(InitialState, before + [open] + body).blocks == RunFrom(InitialState, before).blocks
  {
    var a := RunFrom(InitialState, before);
    RunFromKeepsConsistent(InitialState, before);
    assert before + [open] + body == before + ([open] + body);
    ParseIsAppendOnly(InitialState, before, [open] + body);
    UnterminatedFenceEmitsNothing(a.state, open, body);
    assert a.blocks + [] == a.blocks;
  }

  /**
   * The language of a fence is its annotation with the whitespace around it
   * removed, so "```  python  " opens a python block.
   */
  lemma FenceLanguageIsAnnotation(pre: string, annotation: string, post: string)
    requires IsBlank(pre) && IsBlank(post)
    requires annotation != [] && !IsSpace(annotation[0]) && !IsSpace(annotation[|annotation| - 1])
    ensures var line := FENCE + pre + annotation + post;
            StartsWith(line, FENCE) && FenceLanguage(line) == annotation
  {
    var line := FENCE + pre + annotation + post;
    assert line[3..] == pre + annotation + post;
    TrimOfPadded(pre, annotation, post);
  }

  /** A fence with no annotation, or only whitespace after the marker, opens a "plain text" block. */
  lemma BareFenceIsPlainText(pad: string)
    requires IsBlank(pad)
    ensures StartsWith(FENCE + pad, FENCE) && FenceLanguage(FENCE + pad) == DEFAULT_LANGUAGE
  {
    assert (FENCE + pad)[3..] == pad;
  }

  /** A well-formed fence annotated `python` around one line yields one code block whose language is `python`. */
  lemma PythonFenceExample(line: string)
    requires !StartsWith(line, FENCE)
    ensures RunFrom(InitialState, [FENCE + "python", line, FENCE]).blocks == [Code("python", line)]
  {
    var python := "python";
    assert python[0] == 'p' && python[|python| - 1] == 'n';
    FenceLanguageIsAnnotation("", python, "");
    assert FENCE + "" + python + "" == FENCE + python;
    FencedRegionYieldsOneCodeBlock(InitialState, FENCE + python, [line], FENCE);
    assert [FENCE + python] + [line] + [FENCE] == [FENCE + python, line, FENCE];
  }

  // ---------------------------------------------------------------------------
  // The imperative parser
  // ---------------------------------------------------------------------------

  /** The fold over one more line of `lines`. */
  lemma PrefixStep(lines: seq<string>, i: nat, st: ParseState, blocks: seq<Block>)
    requires i < |lines|
    requires RunFrom(InitialState, lines[..i]) == Scan(st, blocks)
    ensures RunFrom(InitialState, lines[..i + 1]) == Scan(Step(st, lines[i]).state, blocks + Step(st, lines[i]).blocks)
  {
    FoldPrefixStep(Step, InitialState, lines, i);
  }

  lemma FoldPrefixStep(step: (ParseState, string) -> Scan, st: ParseState, lines: seq<string>, i: nat)
    requires i < |lines|
    ensures var before := FoldLines(step, st, lines[..i]);
            var last := step(before.state, lines[i]);
            FoldLines(step, st, lines[..i + 1]) == Scan(last.state, before.blocks + last.blocks)
  {
    assert lines[..i + 1] == lines[..i] + [lines[i]];
    FoldSnoc(step, st, lines[..i], lines[i]);
  }

  /** The classification branch of the loop: push the block the line yields, if any. */
  method PushClassified(blocks: seq<Block>, line: string) returns (pushed: seq<Block>)
    ensures pushed == blocks + OptionToSeq(ClassifyLine(line))
  {
    pushed := blocks;
    if StartsWith(line, "# ") {
      pushed := blocks + [Heading1(line[2..])];
    } else if StartsWith(line, "## ") {
      pushed := blocks + [Heading2(line[3..])];
    } else if StartsWith(line, "### ") {
      pushed := blocks + [Heading3(line[4..])];
    } else if StartsWith(line, "- ") || StartsWith(line, "* ") {
      pushed := blocks + [BulletedItem(line[2..])];
    } else if NumberedMarkerLength(line) > 0 {
      pushed := blocks + [NumberedItem(line[NumberedMarkerLength(line)..])];
    } else if Trim(line) != "" && !StartsWith(line, "---") {
      pushed := blocks + [Paragraph(line)];
    }
  }

  /** `parseMarkdownToBlocks`: one pass over the lines with the fence flag, language and accumulator. */
  method ParseMarkdownToBlocks(markdown: string) returns (blocks: seq<Block>)
    ensures blocks == Parse(markdown)
  {
    var lines := SplitLines(markdown);
    blocks := [];
    var codeBlockContent: seq<string> := [];
    var inCodeBlock := false;
    var codeLanguage := DEFAULT_LANGUAGE;
    for i := 0 to |lines|
      invariant RunFrom(InitialState, lines[..i]) ==
                Scan(ParseState(inCodeBlock, codeLanguage, codeBlockContent), blocks)
    {
      var line := lines[i];
      ghost var step := Step(ParseState(inCodeBlock, codeLanguage, codeBlockContent), line);
      ghost var after := blocks + step.blocks;
      PrefixStep(lines, i, ParseState(inCodeBlock, codeLanguage, codeBlockContent), blocks);
      if StartsWith(line, FENCE) {
        if inCodeBlock {
          if |codeBlockContent| > 0 {
            blocks := blocks + [Code(codeLanguage, JoinLines(codeBlockContent))];
          }
          codeBlockContent := [];
          inCodeBlock := false;
        } else {
          codeLanguage := FenceLanguage(line);
          inCodeBlock := true;
        }
        assert step.state == ParseState(inCodeBlock, codeLanguage, codeBlockContent) && after == blocks;
        continue;
      }
      if inCodeBlock {
        codeBlockContent := codeBlockContent + [line];
        assert step.state == ParseState(inCodeBlock, codeLanguage, codeBlockContent) && after == blocks;
        continue;
      }
      blocks := PushClassified(blocks, line);
      assert step.state == ParseState(inCodeBlock, codeLanguage, codeBlockContent) && after == blocks;
    }
    assert lines[..|lines|] == lines;
  }

  // ---------------------------------------------------------------------------
  // Splitting the blocks into requests
  // ---------------------------------------------------------------------------

  /** The concatenation of a sequence of batches. */
  function Flatten<T>(batches: seq<seq<T>>): seq<T>
  {
    if batches == [] then [] else Flatten(batches[..|batches| - 1]) + batches[|batches| - 1]
  }

  lemma FlattenSnoc<T>(batches: seq<seq<T>>, batch: seq<T>)
    ensures Flatten(batches + [batch]) == Flatten(batches) + batch
  {
    assert (batches + [batch])[..|batches|] == batches;
  }

  /** Every batch holds 1 to 100 blocks, and all but the last exactly 100. */
  predicate WellSized<T>(batches: seq<seq<T>>) {
    (forall k :: 0 <= k < |batches| ==> 0 < |batches[k]| <= APPEND_BATCH_SIZE) &&
    (forall k :: 0 <= k < |batches| - 1 ==> |batches[k]| == APPEND_BATCH_SIZE)
  }

  /** Every batch holds exactly 100 blocks. */
  predicate AllFull<T>(batches: seq<seq<T>>) {
    forall k :: 0 <= k < |batches| ==> |batches[k]| == APPEND_BATCH_SIZE
  }

  /**
   * The loop of `createNotionPage` over the blocks beyond the first 90:
   * consecutive slices of 100, the last one possibly shorter.
   */
  method AppendBatches(remaining: seq<Block>) returns (batches: seq<seq<Block>>)
    ensures Flatten(batches) == remaining
    ensures WellSized(batches)
    ensures remaining == [] <==> batches == []
  {
    batches := [];
    var i := 0;
    while i < |remaining|
      invariant i == APPEND_BATCH_SIZE * |batches|
      invariant Flatten(batches) == remaining[..Min(i, |remaining|)]
      invariant WellSized(batches)
      invariant i <= |remaining| ==> AllFull(batches)
    {
      var end := Min(i + APPEND_BATCH_SIZE, |remaining|);
      var batch := remaining[i..end];
      FlattenSnoc(batches, batch);
      assert remaining[..i] + batch == remaining[..end];
      batches := batches + [batch];
      i := i + APPEND_BATCH_SIZE;
    }
    assert remaining[..|remaining|] == remaining;
  }

  /**
   * The split in `createNotionPage`: the first min(90, n) blocks go with the
   * page creation request, the rest in consecutive append batches of 100,
   * the last one possibly shorter. Nothing is lost or repeated.
   */
  method SplitForUpload(blocks: seq<Block>) returns (initial: seq<Block>, batches: seq<seq<Block>>)
    ensures initial == blocks[..Min(INITIAL_CHILDREN_LIMIT, |blocks|)]
    ensures initial + Flatten(batches) == blocks
    ensures |blocks| <= INITIAL_CHILDREN_LIMIT <==> batches == []
    ensures forall k :: 0 <= k < |batches| ==> 0 < |batches[k]| <= APPEND_BATCH_SIZE
    ensures forall k :: 0 <= k < |batches| - 1 ==> |batches[k]| == APPEND_BATCH_SIZE
  {
    var cut := Min(INITIAL_CHILDREN_LIMIT, |blocks|);
    initial := blocks[..cut];
    batches := [];
    if |blocks| > INITIAL_CHILDREN_LIMIT {
      batches := AppendBatches(blocks[INITIAL_CHILDREN_LIMIT..]);
    }
    assert blocks[..cut] + blocks[cut..] == blocks;
  }

  /** The requests `createNotionPage` sends for one workflow file. */
  datatype UploadPlan = UploadPlan(initial: seq<Block>, batches: seq<seq<Block>>)

  /**
   * `createNotionPage` without its remote calls: a file that could not be read
   * (None) or reads as the empty string yields no page; otherwise the creation
   * request carries the first 90 parsed blocks, and the rest follow in full
   * batches of 100 and a last, shorter one.
   */
  method CreateNotionPage(markdown: Option<string>) returns (plan: Option<UploadPlan>)
    ensures plan.None? <==> markdown.None? || markdown.value == ""
    ensures plan.Some? ==> plan.value.initial + Flatten(plan.value.batches) == Parse(markdown.value)
    ensures plan.Some? ==> var blocks := Parse(markdown.value);
              plan.value.initial == blocks[..Min(INITIAL_CHILDREN_LIMIT, |blocks|)] &&
              (|blocks| <= INITIAL_CHILDREN_LIMIT <==> plan.value.batches == [])
    ensures plan.Some? ==> WellSized(plan.value.batches)
  {
    if markdown.None? || markdown.value == "" {
      return None;
    }
    var blocks := ParseMarkdownToBlocks(markdown.value);
    var initial, batches := SplitForUpload(blocks);
    plan := Some(UploadPlan(initial, batches));
  }
}
