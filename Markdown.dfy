/**
 * `parseMarkdown` of the document viewer: a line-by-line state machine over
 * a small subset of Markdown. It splits a document into text blocks,
 * fenced code blocks (ids `code-0`, `code-1`, ...) and a table of sections.
 *
 * A fence is any line starting with three backticks; inside a fence lines
 * are copied verbatim. Outside, a line is classified in this order: `# `,
 * `## `, `### `, `- ` or `* `, a numbered item (`^\d+\.\s`), a block image
 * (`^!\[(.+?)\]\((.+?)\)$`), a rule (`---` once trimmed), a blank line, and
 * otherwise a paragraph line. Consecutive paragraph lines are joined by
 * spaces.
 *
 * The pure functions below (`Step`, `FlushParagraph`, `FlushCode`, `Run`,
 * `Parse`) specify the parser; the class `LineParser` and the method
 * `ParseMarkdown` are the imperative form, proved equal to them.
 *
 * The file-header test on `### ` lines (a document icon or a file name with
 * a known extension, then clean-up of the name) is the parameter
 * `fileHeader`: it yields the file name when the heading is a file header.
 */
module Markdown {
  import opened Wrappers
  import opened Text
  import opened SectionId

  // ---------------------------------------------------------------------
  // Output and parser state
  // ---------------------------------------------------------------------

  datatype Block =
    | Heading1(text: string)
    | Heading2(title: string, id: string)
    | Heading3(title: string, anchor: Option<string>)
    | BulletItem(item: string)
    | NumberedItem(item: string)
    | Figure(alt: string, url: string)
    | Rule
    | Paragraph(text: string)

  datatype CodeBlock = CodeBlock(language: string, code: string, id: string, section: Option<string>)

  datatype Section = Section(id: string, title: string, level: nat)

  datatype Parsed = Parsed(text: seq<Block>, code: seq<CodeBlock>, sections: seq<Section>)

  /** The locals of `parseMarkdown` that persist from one line to the next. */
  datatype State = State(
    text: seq<Block>, code: seq<CodeBlock>, sections: seq<Section>,
    paragraph: seq<string>, inCode: bool, language: string, codeLines: seq<string>,
    index: nat, fileName: string, section: string)

  const Start: State := State([], [], [], [], false, "", [], 0, "", "")

  // ---------------------------------------------------------------------
  // Line classification
  // ---------------------------------------------------------------------

  predicate IsFence(line: string)
  {
    "```" <= line
  }

  /** The number of leading ASCII digits. */
  function LeadingDigits(s: string): (n: nat)
    ensures n <= |s|
    ensures forall i :: 0 <= i < n ==> IsAsciiDigit(s[i])
    ensures n < |s| ==> !IsAsciiDigit(s[n])
  {
    if s != [] && IsAsciiDigit(s[0]) then 1 + LeadingDigits(s[1..]) else 0
  }

  /** `/^\d+\.\s/`: digits, a dot, one whitespace character. */
  predicate IsNumbered(line: string)
  {
    var d := LeadingDigits(line);
    d >= 1 && d + 1 < |line| && line[d] == '.' && IsJsSpace(line[d + 1])
  }

  /** The item text: the line with the matched prefix removed. */
  function NumberedText(line: string): string
    requires IsNumbered(line)
  {
    line[LeadingDigits(line) + 2..]
  }

  /** The characters a regular-expression `.` does not match. */
  predicate IsLineTerminator(c: char)
  {
    c == '\n' || c == '\r' || c == '\U{2028}' || c == '\U{2029}'
  }

  /** `]` then `(` right after an alt text of length `alt`, with a non-empty url after them. */
  predicate AltFits(line: string, alt: nat)
  {
    1 <= alt && alt + 6 <= |line| && line[alt + 2] == ']' && line[alt + 3] == '('
  }

  /** The lazy `(.+?)` of the alt text: the shortest length, from `from` on, that fits. */
  function FirstAlt(line: string, from: nat): (r: Option<nat>)
    requires 1 <= from
    ensures r.Some? ==> from <= r.value && AltFits(line, r.value)
    ensures forall k :: from <= k && (r.None? || k < r.value) ==> !AltFits(line, k)
    decreases |line| - from
  {
    if from + 6 > |line| then None
    else if AltFits(line, from) then Some(from)
    else FirstAlt(line, from + 1)
  }

  /** Every character is one that `.` matches. */
  predicate NoTerminator(s: string)
  {
    s == [] || (!IsLineTerminator(s[0]) && NoTerminator(s[1..]))
  }

  /** What `^!\[(.+?)\]\((.+?)\)$` accepts (a line never holds a line feed). */
  predicate IsImage(line: string)
  {
    |line| >= 6 && line[0] == '!' && line[1] == '[' && line[|line| - 1] == ')' &&
    NoTerminator(line) && FirstAlt(line, 1).Some?
  }

  /** The two groups of the image match: the shortest alt text, and the url up to the final `)`. */
  function ImageParts(line: string): (parts: (string, string))
    requires IsImage(line)
    ensures |parts.0| >= 1 && |parts.1| >= 1
    ensures line == "![" + parts.0 + "](" + parts.1 + ")"
    ensures forall k :: 1 <= k < |parts.0| ==> !AltFits(line, k)
  {
    var alt := FirstAlt(line, 1).value;
    var parts := (line[2..alt + 2], line[alt + 4..|line| - 1]);
    assert line == line[..2] + parts.0 + line[alt + 2..alt + 4] + parts.1 + line[|line| - 1..];
    parts
  }

  // ---------------------------------------------------------------------
  // The flushes and one step
  // ---------------------------------------------------------------------

  /**
   * `flushParagraph`: a non-empty buffer is joined with spaces and emitted
   * when its text is not blank; the buffer is emptied. Nothing else changes.
   */
  function FlushParagraph(st: State): (r: State)
    ensures r == st.(text := r.text, paragraph := [])
    ensures r.text == st.text || r.text == st.text + [Paragraph(Join(st.paragraph, " "))]
    ensures r.text != st.text <==> st.paragraph != [] && !AllSpace(Join(st.paragraph, " "))
  {
    if |st.paragraph| > 0 then
      var text := Join(st.paragraph, " ");
      TrimEmptyIff(text);
      var blocks := if Trim(text) != "" then st.text + [Paragraph(text)] else st.text;
      st.(text := blocks, paragraph := [])
    else
      st
  }

  /** The label a code block shows: its file name, else its language, else `code`. */
  function Label(fileName: string, language: string): string
  {
    if fileName != "" then fileName else if language != "" then language else "code"
  }

  function CodeId(n: nat): string
  {
    "code-" + NatToString(n)
  }

  /**
   * `flushCodeBlock`: a non-empty buffer becomes the next code block, with
   * the next id, the current label and section (none when the section is
   * empty); buffer, language and file name are then reset. An empty buffer
   * changes nothing.
   */
  function FlushCode(st: State): (r: State)
    ensures st.codeLines == [] ==> r == st
    ensures st.codeLines != [] ==>
      r == st.(code := r.code, index := st.index + 1, codeLines := [], language := "", fileName := "") &&
      r.code == st.code + [CodeBlock(Label(st.fileName, st.language), Join(st.codeLines, "\n"),
                                     CodeId(st.index), if st.section == "" then None else Some(st.section))]
  {
    if |st.codeLines| > 0 then
      var block := CodeBlock(Label(st.fileName, st.language), Join(st.codeLines, "\n"),
                             CodeId(st.index), if st.section == "" then None else Some(st.section));
      st.(code := st.code + [block], index := st.index + 1, codeLines := [], language := "", fileName := "")
    else
      st
  }

  /** Flush the paragraph, then emit one block. */
  function Push(st: State, b: Block): (r: State)
    ensures r == st.(text := r.text, paragraph := [])
    ensures |r.text| >= 1 && r.text[|r.text| - 1] == b
  {
    var s := FlushParagraph(st);
    s.(text := s.text + [b])
  }

  /**
   * A fence line: close the open block, or flush the paragraph and open one.
   * Either way code mode flips and the outline is untouched.
   */
  function Fence(st: State, line: string): (r: State)
    requires IsFence(line)
    ensures r.inCode == !st.inCode
    ensures r.sections == st.sections && r.section == st.section
  {
    if st.inCode then FlushCode(st).(inCode := false)
    else FlushParagraph(st).(inCode := true, language := Trim(line[3..]))
  }

  /** A `## ` line: a level-2 section that also becomes the current section. */
  function Heading2Line(st: State, title: string): (r: State)
    ensures r.sections == st.sections + [Section(Slug(title), title, 2)]
    ensures r.section == title
  {
    var s := FlushParagraph(st);
    var id := Slug(title);
    s.(section := title, sections := s.sections + [Section(id, title, 2)], text := s.text + [Heading2(title, id)])
  }

  lemma Heading2LineUnfold(st: State, title: string)
    ensures var s := FlushParagraph(st);
      Heading2Line(st, title) ==
        s.(section := title, sections := s.sections + [Section(Slug(title), title, 2)],
           text := s.text + [Heading2(title, Slug(title))])
  {
  }

  /**
   * A `### ` line: the current section if there is none yet; a file header
   * sets the file name and yields no section, any other heading a level-3
   * section.
   */
  function Heading3Line(st: State, header: string, fileHeader: string -> Option<string>): (r: State)
    ensures r == st.(text := r.text, paragraph := [], section := r.section, sections := r.sections,
                     fileName := r.fileName)
    ensures r.section == if st.section == "" then header else st.section
    ensures r.sections == st.sections + (if fileHeader(header).None? then [Section(Slug(header), header, 3)] else [])
    ensures r.fileName == if fileHeader(header).Some? then fileHeader(header).value else st.fileName
  {
    var s0 := FlushParagraph(st);
    var s := if s0.section == "" then s0.(section := header) else s0;
    match fileHeader(header)
    case Some(name) => s.(fileName := name, text := s.text + [Heading3(header, None)])
    case None =>
      var id := Slug(header);
      s.(sections := s.sections + [Section(id, header, 3)], text := s.text + [Heading3(header, Some(id))])
  }

  /** What a line outside a code block is, by the first rule that claims it. */
  datatype LineKind =
    | Title(text: string)
    | SectionTitle(title: string)
    | SubTitle(header: string)
    | Bullet(item: string)
    | Numbered(item: string)
    | Image(alt: string, url: string)
    | HorizontalRule
    | Blank
    | Plain

  /** The rules in the order the parser tests them, each with the text it keeps. */
  function Classify(line: string): (k: LineKind)
    ensures k.Blank? ==> AllSpace(line)
    ensures k.Plain? ==> !AllSpace(line)
    ensures k.SectionTitle? ==> "## " <= line && k.title == line[3..]
    ensures k.SubTitle? ==> "### " <= line && k.header == line[4..]
    ensures "## " <= line ==> k.SectionTitle?
    ensures "### " <= line ==> k.SubTitle?
  {
    assert "## " <= line ==> line[1] == '#';
    assert "### " <= line ==> line[1] == '#' && line[2] == '#';
    if "# " <= line then Title(line[2..])
    else if "## " <= line then SectionTitle(line[3..])
    else if "### " <= line then SubTitle(line[4..])
    else if "- " <= line || "* " <= line then Bullet(line[2..])
    else if IsNumbered(line) then Numbered(NumberedText(line))
    else if IsImage(line) then
      var (alt, url) := ImageParts(line);
      Image(alt, url)
    else if Trim(line) == "---" then HorizontalRule
    else
      TrimEmptyIff(line);
      if Trim(line) == "" then Blank else Plain
  }

  /** A line outside a code block: the block its rule emits, after flushing the paragraph. */
  function Outline(st: State, line: string, fileHeader: string -> Option<string>): (r: State)
    ensures r.code == st.code && r.codeLines == st.codeLines && r.inCode == st.inCode
    ensures r.index == st.index && r.language == st.language
    ensures st.sections <= r.sections
  {
    match Classify(line)
    case Title(text) => Push(st, Heading1(text))
    case SectionTitle(title) => Heading2Line(st, title)
    case SubTitle(header) => Heading3Line(st, header, fileHeader)
    case Bullet(item) => Push(st, BulletItem(item))
    case Numbered(item) => Push(st, NumberedItem(item))
    case Image(alt, url) => Push(st, Figure(alt, url))
    case HorizontalRule => Push(st, Rule)
    case Blank => FlushParagraph(st)
    case Plain => st.(paragraph := st.paragraph + [line])
  }

  /**
   * The body of the `forEach` over lines. Only a fence flips code mode, the
   * code counter never goes back, and sections are only ever appended.
   */
  function Step(st: State, line: string, fileHeader: string -> Option<string>): (r: State)
    ensures r.inCode == (st.inCode != IsFence(line))
    ensures r.index >= st.index
    ensures st.sections <= r.sections
  {
    if IsFence(line) then Fence(st, line)
    else if st.inCode then st.(codeLines := st.codeLines + [line])
    else Outline(st, line, fileHeader)
  }

  /** The `forEach` over the remaining lines: sections are only ever appended. */
  function Run(lines: seq<string>, st: State, fileHeader: string -> Option<string>): (r: State)
    ensures r.index >= st.index
    ensures st.sections <= r.sections
  {
    if lines == [] then st else Run(lines[1..], Step(st, lines[0], fileHeader), fileHeader)
  }

  /** The final flushes: paragraph first, then an unterminated code block; nothing stays buffered. */
  function Finish(st: State): (r: State)
    ensures r.paragraph == [] && r.codeLines == []
    ensures r.sections == st.sections
  {
    FlushCode(FlushParagraph(st))
  }

  /** `parseMarkdown`; an empty document gives no text, no code and no sections. */
  function Parse(content: string, fileHeader: string -> Option<string>): (p: Parsed)
    ensures content == "" ==> p == Parsed([], [], [])
  {
    var lines := Split(content);
    assert content == "" ==>
      lines == [""] && Step(Start, "", fileHeader) == Start && Run(lines, Start, fileHeader) == Start;
    var st := Finish(Run(lines, Start, fileHeader));
    Parsed(st.text, st.code, st.sections)
  }

  // ---------------------------------------------------------------------
  // Reference views of a document: the lines inside and outside fences
  // ---------------------------------------------------------------------

  /** The non-fence lines that lie outside code blocks, in order. */
  function Outside(lines: seq<string>, inCode: bool): seq<string>
  {
    if lines == [] then []
    else if IsFence(lines[0]) then Outside(lines[1..], !inCode)
    else if inCode then Outside(lines[1..], inCode)
    else [lines[0]] + Outside(lines[1..], inCode)
  }

  /** The non-fence lines that lie inside code blocks, in order. */
  function Inside(lines: seq<string>, inCode: bool): (r: seq<string>)
    ensures forall k :: 0 <= k < |r| ==> !IsFence(r[k])
  {
    if lines == [] then []
    else if IsFence(lines[0]) then Inside(lines[1..], !inCode)
    else if inCode then [lines[0]] + Inside(lines[1..], inCode)
    else Inside(lines[1..], inCode)
  }

  /** The sections one line outside code yields: `## ` always, `### ` unless a file header. */
  function LineSections(line: string, fileHeader: string -> Option<string>): seq<Section>
  {
    match Classify(line)
    case SectionTitle(title) => [Section(Slug(title), title, 2)]
    case SubTitle(header) => if fileHeader(header).None? then [Section(Slug(header), header, 3)] else []
    case _ => []
  }

  function SectionsOf(lines: seq<string>, fileHeader: string -> Option<string>): seq<Section>
  {
    if lines == [] then [] else LineSections(lines[0], fileHeader) + SectionsOf(lines[1..], fileHeader)
  }

  /** The code lines held by a list of code blocks, block after block. */
  function CodeLinesOf(blocks: seq<CodeBlock>): seq<string>
  {
    if blocks == [] then [] else CodeLinesOf(blocks[..|blocks| - 1]) + Split(blocks[|blocks| - 1].code)
  }

  // ---------------------------------------------------------------------
  // Invariant of the line loop
  // ---------------------------------------------------------------------

  predicate NoFenceLine(code: string)
  {
    forall k :: 0 <= k < |Split(code)| ==> !IsFence(Split(code)[k])
  }

  predicate IsLine(line: string)
  {
    '\n' !in line
  }

  /**
   * What holds between lines: code ids are `code-0`, `code-1`, ... in
   * emission order; no emitted or buffered code line is a fence; the code
   * buffer is empty outside a block and the paragraph buffer inside one;
   * buffered and emitted paragraph text is never blank.
   */
  predicate Inv(st: State)
  {
    st.index == |st.code| &&
    (forall i :: 0 <= i < |st.code| ==> st.code[i].id == CodeId(i)) &&
    (forall i :: 0 <= i < |st.code| ==> NoFenceLine(st.code[i].code)) &&
    (forall k :: 0 <= k < |st.codeLines| ==> !IsFence(st.codeLines[k]) && IsLine(st.codeLines[k])) &&
    (!st.inCode ==> st.codeLines == []) &&
    (st.inCode ==> st.paragraph == []) &&
    (forall k :: 0 <= k < |st.paragraph| ==> !AllSpace(st.paragraph[k])) &&
    (forall i :: 0 <= i < |st.text| ==> st.text[i].Paragraph? ==> !AllSpace(st.text[i].text))
  }

  lemma StartInv()
    ensures Inv(Start)
  {
  }

  /** The check `if (text.trim())` in `flushParagraph` never fails: buffered lines are not blank. */
  lemma FlushedParagraphNotBlank(st: State)
    requires Inv(st) && st.paragraph != []
    ensures FlushParagraph(st).text == st.text + [Paragraph(Join(st.paragraph, " "))]
  {
    JoinNotBlank(st.paragraph, " ");
  }

  lemma FlushParagraphInv(st: State)
    requires Inv(st)
    ensures Inv(FlushParagraph(st))
  {
    if st.paragraph != [] {
      FlushedParagraphNotBlank(st);
    }
  }

  lemma FlushCodeInv(st: State)
    requires Inv(st)
    ensures Inv(FlushCode(st))
    ensures st.codeLines != [] ==> CodeLinesOf(FlushCode(st).code) == CodeLinesOf(st.code) + st.codeLines
    ensures st.codeLines == [] ==> FlushCode(st).code == st.code
  {
    if st.codeLines != [] {
      var r := FlushCode(st);
      var b := r.code[|r.code| - 1];
      JoinSplit(st.codeLines);
      assert Split(b.code) == st.codeLines;
      assert NoFenceLine(b.code);
      assert r.code[..|r.code| - 1] == st.code;
      forall i | 0 <= i < |r.code|
        ensures r.code[i].id == CodeId(i) && NoFenceLine(r.code[i].code)
      {
        if i < |st.code| {
          assert r.code[i] == st.code[i];
        }
      }
    }
  }

  /** The invariant does not look at the outline: sections, current section, file name, language. */
  lemma InvFrame(s: State, t: State)
    requires Inv(s)
    requires t.text == s.text && t.code == s.code && t.paragraph == s.paragraph
    requires t.inCode == s.inCode && t.codeLines == s.codeLines && t.index == s.index
    ensures Inv(t)
  {
  }

  /** Emitting a block other than a paragraph keeps the invariant. */
  lemma AppendBlockInv(s: State, b: Block)
    requires Inv(s) && !b.Paragraph?
    ensures Inv(s.(text := s.text + [b]))
  {
    var t := s.(text := s.text + [b]);
    forall i | 0 <= i < |t.text| && t.text[i].Paragraph?
      ensures !AllSpace(t.text[i].text)
    {
      assert i < |s.text| && t.text[i] == s.text[i];
    }
  }

  lemma PushInv(st: State, b: Block)
    requires Inv(st) && !b.Paragraph?
    ensures Inv(Push(st, b))
  {
    FlushParagraphInv(st);
    AppendBlockInv(FlushParagraph(st), b);
  }

  lemma OutlineInv(st: State, line: string, fileHeader: string -> Option<string>)
    requires Inv(st) && !st.inCode
    ensures Inv(Outline(st, line, fileHeader))
  {
    var k := Classify(line);
    if k.Title? {
      PushInv(st, Heading1(k.text));
    } else if k.SectionTitle? {
      Heading2Inv(st, k.title);
    } else if k.SubTitle? {
      Heading3Inv(st, k.header, fileHeader);
    } else if k.Bullet? {
      PushInv(st, BulletItem(k.item));
    } else if k.Numbered? {
      PushInv(st, NumberedItem(k.item));
    } else if k.Image? {
      PushInv(st, Figure(k.alt, k.url));
    } else if k.HorizontalRule? {
      PushInv(st, Rule);
    } else if k.Blank? {
      FlushParagraphInv(st);
    } else {
      assert Outline(st, line, fileHeader) == st.(paragraph := st.paragraph + [line]);
    }
  }

  lemma Heading2Inv(st: State, title: string)
    requires Inv(st)
    ensures Inv(Heading2Line(st, title))
  {
    var s := FlushParagraph(st);
    FlushParagraphInv(st);
    var b := Heading2(title, Slug(title));
    AppendBlockInv(s, b);
    InvFrame(s.(text := s.text + [b]), Heading2Line(st, title));
  }

  lemma Heading3Inv(st: State, header: string, fileHeader: string -> Option<string>)
    requires Inv(st)
    ensures Inv(Heading3Line(st, header, fileHeader))
  {
    var s := FlushParagraph(st);
    FlushParagraphInv(st);
    var r := Heading3Line(st, header, fileHeader);
    var b := Heading3(header, if fileHeader(header).None? then Some(Slug(header)) else None);
    assert r.text == s.text + [b];
    AppendBlockInv(s, b);
    InvFrame(s.(text := s.text + [b]), r);
  }

  lemma StepInv(st: State, line: string, fileHeader: string -> Option<string>)
    requires Inv(st) && IsLine(line)
    ensures Inv(Step(st, line, fileHeader))
  {
    if IsFence(line) {
      if st.inCode {
        FlushCodeInv(st);
      } else {
        FlushParagraphInv(st);
      }
    } else if !st.inCode {
      OutlineInv(st, line, fileHeader);
    }
  }

  predicate AllLines(lines: seq<string>)
  {
    forall k :: 0 <= k < |lines| ==> IsLine(lines[k])
  }

  lemma {:induction false} RunInv(lines: seq<string>, st: State, fileHeader: string -> Option<string>)
    requires Inv(st) && AllLines(lines)
    ensures Inv(Run(lines, st, fileHeader))
    decreases |lines|
  {
    if lines != [] {
      StepInv(st, lines[0], fileHeader);
      RunInv(lines[1..], Step(st, lines[0], fileHeader), fileHeader);
    }
  }

  /** One step moves a code line into the code state exactly when it lies inside a block. */
  lemma StepCodeLines(st: State, line: string, fileHeader: string -> Option<string>)
    requires Inv(st) && IsLine(line)
    ensures var r := Step(st, line, fileHeader);
      CodeLinesOf(r.code) + r.codeLines ==
        CodeLinesOf(st.code) + st.codeLines + (if !IsFence(line) && st.inCode then [line] else []) &&
      r.inCode == (if IsFence(line) then !st.inCode else st.inCode)
  {
    if IsFence(line) && st.inCode {
      FlushCodeInv(st);
    }
  }

  /** One line of the reference view of the code lines. */
  lemma InsideCons(lines: seq<string>, inCode: bool)
    requires lines != []
    ensures Inside(lines, inCode) ==
      (if !IsFence(lines[0]) && inCode then [lines[0]] else []) +
      Inside(lines[1..], if IsFence(lines[0]) then !inCode else inCode)
  {
  }

  /**
   * Code lines are copied verbatim: the lines held by the code blocks and
   * the buffer grow by exactly the lines that lie inside fences.
   */
  lemma {:induction false} RunCodeLines(lines: seq<string>, st: State, fileHeader: string -> Option<string>)
    requires Inv(st) && AllLines(lines)
    ensures var r := Run(lines, st, fileHeader);
      CodeLinesOf(r.code) + r.codeLines == CodeLinesOf(st.code) + st.codeLines + Inside(lines, st.inCode)
    decreases |lines|
  {
    if lines != [] {
      var line := lines[0];
      var next := Step(st, line, fileHeader);
      StepCodeLines(st, line, fileHeader);
      StepInv(st, line, fileHeader);
      RunCodeLines(lines[1..], next, fileHeader);
      InsideCons(lines, st.inCode);
      var extra := if !IsFence(line) && st.inCode then [line] else [];
      var before := CodeLinesOf(st.code) + st.codeLines;
      var rest := Inside(lines[1..], next.inCode);
      var r := Run(lines[1..], next, fileHeader);
      ConcatAssoc(before, extra, rest);
      assert Run(lines, st, fileHeader) == r;
    } else {
      assert Inside(lines, st.inCode) == [];
    }
  }

  /** Lines other than `## ` and `### ` leave the sections and the current section alone. */
  lemma OutlineOther(st: State, line: string, fileHeader: string -> Option<string>)
    requires !Classify(line).SectionTitle? && !Classify(line).SubTitle?
    ensures var r := Outline(st, line, fileHeader); r.section == st.section && r.sections == st.sections
  {
    var k := Classify(line);
    var r := Outline(st, line, fileHeader);
    if k.Title? {
      assert r == Push(st, Heading1(k.text));
    } else if k.Bullet? {
      assert r == Push(st, BulletItem(k.item));
    } else if k.Numbered? {
      assert r == Push(st, NumberedItem(k.item));
    } else if k.Image? {
      assert r == Push(st, Figure(k.alt, k.url));
    } else if k.HorizontalRule? {
      assert r == Push(st, Rule);
    } else if k.Blank? {
      assert r == FlushParagraph(st);
    } else {
      assert r == st.(paragraph := st.paragraph + [line]);
    }
  }

  lemma StepSections(st: State, line: string, fileHeader: string -> Option<string>)
    ensures var r := Step(st, line, fileHeader);
      r.sections == st.sections + (if !IsFence(line) && !st.inCode then LineSections(line, fileHeader) else []) &&
      r.inCode == (if IsFence(line) then !st.inCode else st.inCode)
  {
    if !IsFence(line) && !st.inCode {
      var k := Classify(line);
      assert Step(st, line, fileHeader) == Outline(st, line, fileHeader);
      if k.SectionTitle? {
        assert Outline(st, line, fileHeader) == Heading2Line(st, k.title);
        assert LineSections(line, fileHeader) == [Section(Slug(k.title), k.title, 2)];
      } else if k.SubTitle? {
        assert Outline(st, line, fileHeader) == Heading3Line(st, k.header, fileHeader);
        assert LineSections(line, fileHeader) ==
          if fileHeader(k.header).None? then [Section(Slug(k.header), k.header, 3)] else [];
      } else {
        assert LineSections(line, fileHeader) == [];
        OutlineOther(st, line, fileHeader);
      }
    }
  }

  /** Sections are those of the lines outside fences, in document order. */
  lemma {:induction false} RunSections(lines: seq<string>, st: State, fileHeader: string -> Option<string>)
    ensures Run(lines, st, fileHeader).sections == st.sections + SectionsOf(Outside(lines, st.inCode), fileHeader)
    decreases |lines|
  {
    if lines != [] {
      var next := Step(st, lines[0], fileHeader);
      StepSections(st, lines[0], fileHeader);
      RunSections(lines[1..], next, fileHeader);
      assert Run(lines, st, fileHeader) == Run(lines[1..], next, fileHeader);
      if !IsFence(lines[0]) && !st.inCode {
        var out := Outside(lines[1..], st.inCode);
        assert Outside(lines, st.inCode) == [lines[0]] + out;
        assert ([lines[0]] + out)[1..] == out;
        assert SectionsOf([lines[0]] + out, fileHeader) == LineSections(lines[0], fileHeader) + SectionsOf(out, fileHeader);
        ConcatAssoc(st.sections, LineSections(lines[0], fileHeader), SectionsOf(out, fileHeader));
      } else {
        assert Outside(lines, st.inCode) == Outside(lines[1..], next.inCode);
      }
    }
  }

  /**
   * Plain lines outside code accumulate in the paragraph buffer and emit
   * nothing; any other line outside code, and any fence, empties the buffer;
   * lines inside a block leave buffer and text alone.
   */
  lemma StepParagraph(st: State, line: string, fileHeader: string -> Option<string>)
    requires Inv(st)
    ensures var r := Step(st, line, fileHeader);
      (!st.inCode && !IsFence(line) && Classify(line).Plain? ==>
        r.paragraph == st.paragraph + [line] && r.text == st.text) &&
      (!st.inCode && !IsFence(line) && !Classify(line).Plain? ==> r.paragraph == []) &&
      (IsFence(line) ==> r.paragraph == []) &&
      (st.inCode && !IsFence(line) ==> r.paragraph == st.paragraph && r.text == st.text)
  {
    if IsFence(line) {
      if st.inCode {
        assert Step(st, line, fileHeader) == FlushCode(st).(inCode := false);
      } else {
        assert Step(st, line, fileHeader) == FlushParagraph(st).(inCode := true, language := Trim(line[3..]));
      }
    } else if !st.inCode {
      OutlineParagraph(st, line, fileHeader);
    }
  }

  /** A plain line joins the paragraph buffer; any other line outside code empties it. */
  lemma OutlineParagraph(st: State, line: string, fileHeader: string -> Option<string>)
    ensures var r := Outline(st, line, fileHeader);
      (Classify(line).Plain? ==> r.paragraph == st.paragraph + [line] && r.text == st.text) &&
      (!Classify(line).Plain? ==> r.paragraph == [])
  {
    var k := Classify(line);
    var r := Outline(st, line, fileHeader);
    if k.Title? {
      assert r == Push(st, Heading1(k.text));
    } else if k.SectionTitle? {
      Heading2LineUnfold(st, k.title);
    } else if k.SubTitle? {
      assert r == Heading3Line(st, k.header, fileHeader);
    } else if k.Bullet? {
      assert r == Push(st, BulletItem(k.item));
    } else if k.Numbered? {
      assert r == Push(st, NumberedItem(k.item));
    } else if k.Image? {
      assert r == Push(st, Figure(k.alt, k.url));
    } else if k.HorizontalRule? {
      assert r == Push(st, Rule);
    } else if k.Blank? {
      assert r == FlushParagraph(st);
    } else {
      assert r == st.(paragraph := st.paragraph + [line]);
    }
  }

  // ---------------------------------------------------------------------
  // The section label of code blocks
  // ---------------------------------------------------------------------

  /** The heading lines outside code that move the current section. */
  datatype HeadingEvent = H2(title: string) | H3(header: string)

  function LineEvents(line: string): (evs: seq<HeadingEvent>)
    ensures |evs| <= 1
  {
    match Classify(line)
    case SectionTitle(title) => [H2(title)]
    case SubTitle(header) => [H3(header)]
    case _ => []
  }

  function EventsOf(lines: seq<string>): seq<HeadingEvent>
  {
    if lines == [] then [] else LineEvents(lines[0]) + EventsOf(lines[1..])
  }

  /** How one heading moves the current section: `## ` always, `### ` only when it is empty. */
  function Apply(cur: string, e: HeadingEvent): string
  {
    match e
    case H2(title) => title
    case H3(header) => if cur == "" then header else cur
  }

  function LabelAfter(cur: string, evs: seq<HeadingEvent>): string
    decreases |evs|
  {
    if evs == [] then cur else LabelAfter(Apply(cur, evs[0]), evs[1..])
  }

  /** The position of the last `## ` heading, if any. */
  function LastH2(evs: seq<HeadingEvent>): (k: Option<nat>)
    ensures k.Some? ==>
      k.value < |evs| && evs[k.value].H2? && forall m :: k.value < m < |evs| ==> !evs[m].H2?
    ensures k.None? ==> forall m :: 0 <= m < |evs| ==> !evs[m].H2?
  {
    if evs == [] then None
    else match LastH2(evs[1..])
      case Some(k) => Some(k + 1)
      case None => if evs[0].H2? then Some(0) else None
  }

  /** The first non-empty `### ` header, or the empty string. */
  function FirstTitled(evs: seq<HeadingEvent>): (r: string)
    ensures r == "" <==> forall m :: 0 <= m < |evs| && evs[m].H3? ==> evs[m].header == ""
    ensures r != "" ==> exists m :: 0 <= m < |evs| && evs[m] == H3(r)
  {
    if evs == [] then ""
    else if evs[0].H3? && evs[0].header != "" then evs[0].header
    else FirstTitled(evs[1..])
  }

  /**
   * The section in force after some headings, stated without the fold: the
   * title of the last `## ` when it has one, else the first non-empty `### `
   * after it; with no `## ` at all, the section already in force, else the
   * first non-empty `### `.
   */
  function Reference(cur: string, evs: seq<HeadingEvent>): string
  {
    match LastH2(evs)
    case Some(k) => if evs[k].title != "" then evs[k].title else FirstTitled(evs[k + 1..])
    case None => if cur != "" then cur else FirstTitled(evs)
  }

  /** The running section agrees with the reference definition. */
  lemma {:induction false} LabelReference(cur: string, evs: seq<HeadingEvent>)
    ensures LabelAfter(cur, evs) == Reference(cur, evs)
    decreases |evs|
  {
    if evs != [] {
      var rest := evs[1..];
      LabelReference(Apply(cur, evs[0]), rest);
      match LastH2(rest)
      case Some(k) =>
        assert LastH2(evs) == Some(k + 1);
        assert evs[k + 2..] == rest[k + 1..];
      case None =>
    }
  }

  lemma StepLabel(st: State, line: string, fileHeader: string -> Option<string>)
    ensures Step(st, line, fileHeader).section ==
      if !IsFence(line) && !st.inCode then LabelAfter(st.section, LineEvents(line)) else st.section
  {
    if !IsFence(line) && !st.inCode {
      OutlineLabel(st, line, fileHeader);
    }
  }

  /** A line outside code moves the current section as its heading event says. */
  lemma OutlineLabel(st: State, line: string, fileHeader: string -> Option<string>)
    ensures Outline(st, line, fileHeader).section == LabelAfter(st.section, LineEvents(line))
  {
    var k := Classify(line);
    if k.SectionTitle? {
      LabelAfterOne(st.section, H2(k.title));
    } else if k.SubTitle? {
      LabelAfterOne(st.section, H3(k.header));
    } else {
      assert LineEvents(line) == [];
      OutlineOther(st, line, fileHeader);
    }
  }

  lemma LabelAfterOne(cur: string, e: HeadingEvent)
    ensures LabelAfter(cur, [e]) == Apply(cur, e)
  {
    assert [e][1..] == [];
  }

  /** The section after a run of lines follows the headings outside fences. */
  lemma {:induction false} RunLabel(lines: seq<string>, st: State, fileHeader: string -> Option<string>)
    ensures Run(lines, st, fileHeader).section == LabelAfter(st.section, EventsOf(Outside(lines, st.inCode)))
    decreases |lines|
  {
    if lines != [] {
      var next := Step(st, lines[0], fileHeader);
      StepLabel(st, lines[0], fileHeader);
      RunLabel(lines[1..], next, fileHeader);
      var out := Outside(lines[1..], next.inCode);
      if !IsFence(lines[0]) && !st.inCode {
        assert Outside(lines, st.inCode) == [lines[0]] + out;
        assert ([lines[0]] + out)[1..] == out;
        var evs := LineEvents(lines[0]);
        assert EventsOf(Outside(lines, st.inCode)) == evs + EventsOf(out);
        if evs != [] {
          assert (evs + EventsOf(out))[1..] == EventsOf(out);
        } else {
          assert evs + EventsOf(out) == EventsOf(out);
        }
      }
    }
  }

  lemma {:induction false} RunSnoc(lines: seq<string>, line: string, st: State, fileHeader: string -> Option<string>)
    ensures Run(lines + [line], st, fileHeader) == Step(Run(lines, st, fileHeader), line, fileHeader)
    decreases |lines|
  {
    if lines == [] {
      assert [] + [line] == [line];
    } else {
      assert (lines + [line])[1..] == lines[1..] + [line];
      RunSnoc(lines[1..], line, Step(st, lines[0], fileHeader), fileHeader);
    }
  }

  /**
   * A closing fence emits a block labelled with the section in force: the
   * reference section of the headings outside fences before it, or none
   * when that is empty.
   */
  lemma ClosedBlockSection(lines: seq<string>, j: nat, fileHeader: string -> Option<string>)
    requires j < |lines| && IsFence(lines[j])
    requires var st := Run(lines[..j], Start, fileHeader); st.inCode && st.codeLines != []
    ensures var cur := Reference("", EventsOf(Outside(lines[..j], false)));
      var r := Run(lines[..j + 1], Start, fileHeader);
      |r.code| >= 1 && r.code[|r.code| - 1].section == (if cur == "" then None else Some(cur))
  {
    RunPrefixStep(lines, j, Start, fileHeader);
    FenceClosesBlock(Run(lines[..j], Start, fileHeader), lines[j], fileHeader);
    RunSectionReference(lines[..j], fileHeader);
  }

  /** Running one more line of the document is one more step. */
  lemma RunPrefixStep(lines: seq<string>, j: nat, st: State, fileHeader: string -> Option<string>)
    requires j < |lines|
    ensures Run(lines[..j + 1], st, fileHeader) == Step(Run(lines[..j], st, fileHeader), lines[j], fileHeader)
  {
    assert lines[..j + 1] == lines[..j] + [lines[j]];
    RunSnoc(lines[..j], lines[j], st, fileHeader);
  }

  /** From the start, the section in force is the reference section of the headings outside fences. */
  lemma RunSectionReference(lines: seq<string>, fileHeader: string -> Option<string>)
    ensures Run(lines, Start, fileHeader).section == Reference("", EventsOf(Outside(lines, false)))
  {
    RunLabel(lines, Start, fileHeader);
    LabelReference("", EventsOf(Outside(lines, false)));
  }

  /** A closing fence emits the open block, labelled with the current section. */
  lemma FenceClosesBlock(st: State, line: string, fileHeader: string -> Option<string>)
    requires IsFence(line) && st.inCode && st.codeLines != []
    ensures var r := Step(st, line, fileHeader);
      |r.code| >= 1 && r.code[|r.code| - 1].section == (if st.section == "" then None else Some(st.section))
  {
  }

  /** An unterminated block at the end of the document carries the section in force at the end. */
  lemma UnclosedBlockSection(content: string, fileHeader: string -> Option<string>)
    requires Run(Split(content), Start, fileHeader).codeLines != []
    ensures var cur := Reference("", EventsOf(Outside(Split(content), false)));
      var p := Parse(content, fileHeader);
      |p.code| >= 1 && p.code[|p.code| - 1].section == (if cur == "" then None else Some(cur))
  {
    RunSectionReference(Split(content), fileHeader);
  }

  // ---------------------------------------------------------------------
  // The whole parse
  // ---------------------------------------------------------------------

  lemma ParseInv(content: string, fileHeader: string -> Option<string>)
    ensures Inv(Finish(Run(Split(content), Start, fileHeader)))
  {
    var st := Run(Split(content), Start, fileHeader);
    RunInv(Split(content), Start, fileHeader);
    FlushParagraphInv(st);
    FlushCodeInv(FlushParagraph(st));
  }

  /** Code ids are `code-0`, `code-1`, ... in emission order, hence distinct. */
  lemma ParseCodeIds(content: string, fileHeader: string -> Option<string>)
    ensures var p := Parse(content, fileHeader);
      (forall i :: 0 <= i < |p.code| ==> p.code[i].id == CodeId(i)) &&
      (forall i, j :: 0 <= i < j < |p.code| ==> p.code[i].id != p.code[j].id)
  {
    ParseInv(content, fileHeader);
    var p := Parse(content, fileHeader);
    forall i, j | 0 <= i < j < |p.code|
      ensures p.code[i].id != p.code[j].id
    {
      if p.code[i].id == p.code[j].id {
        assert NatToString(i) == p.code[i].id[5..];
        assert NatToString(j) == p.code[j].id[5..];
        NatToStringInjective(i, j);
      }
    }
  }

  /** No line of an emitted code block starts with three backticks. */
  lemma ParseCodeHasNoFence(content: string, fileHeader: string -> Option<string>)
    ensures var p := Parse(content, fileHeader);
      forall i :: 0 <= i < |p.code| ==> NoFenceLine(p.code[i].code)
  {
    ParseInv(content, fileHeader);
  }

  /** Every emitted paragraph has non-blank text. */
  lemma ParseParagraphsNotBlank(content: string, fileHeader: string -> Option<string>)
    ensures var p := Parse(content, fileHeader);
      forall i :: 0 <= i < |p.text| ==> p.text[i].Paragraph? ==> Trim(p.text[i].text) != ""
  {
    ParseInv(content, fileHeader);
    var p := Parse(content, fileHeader);
    forall i | 0 <= i < |p.text| && p.text[i].Paragraph?
      ensures Trim(p.text[i].text) != ""
    {
      TrimEmptyIff(p.text[i].text);
    }
  }

  /**
   * The code blocks hold exactly the lines inside fences, in order; an
   * unterminated block at the end of the document is emitted too.
   */
  lemma ParseCodeVerbatim(content: string, fileHeader: string -> Option<string>)
    ensures CodeLinesOf(Parse(content, fileHeader).code) == Inside(Split(content), false)
  {
    var lines := Split(content);
    assert AllLines(lines);
    RunInv(lines, Start, fileHeader);
    RunCodeLines(lines, Start, fileHeader);
    var st := Run(lines, Start, fileHeader);
    assert CodeLinesOf(st.code) + st.codeLines == Inside(lines, false);
    var f := FlushParagraph(st);
    FlushParagraphInv(st);
    FlushCodeInv(f);
    var g := FlushCode(f);
    assert Parse(content, fileHeader).code == g.code;
    if f.codeLines == [] {
      assert CodeLinesOf(g.code) == CodeLinesOf(st.code) + st.codeLines;
    } else {
      assert CodeLinesOf(g.code) == CodeLinesOf(st.code) + st.codeLines;
    }
  }

  /** The sections are those of the `## ` and non-file-header `### ` lines outside fences, in order. */
  lemma ParseSections(content: string, fileHeader: string -> Option<string>)
    ensures Parse(content, fileHeader).sections == SectionsOf(Outside(Split(content), false), fileHeader)
  {
    RunSections(Split(content), Start, fileHeader);
  }

  // ---------------------------------------------------------------------
  // The parser as the source writes it: closure state updated line by line
  // ---------------------------------------------------------------------

  /** The locals that the `forEach` body and the two flush helpers update. */
  class LineParser {
    var textElements: seq<Block>
    var codeBlocks: seq<CodeBlock>
    var sections: seq<Section>
    var currentParagraph: seq<string>
    var inCodeBlock: bool
    var codeBlockLanguage: string
    var codeBlockContent: seq<string>
    var codeBlockIndex: nat
    var currentFileName: string
    var currentSection: string

    function Snapshot(): State
      reads this
    {
      State(textElements, codeBlocks, sections, currentParagraph, inCodeBlock, codeBlockLanguage,
            codeBlockContent, codeBlockIndex, currentFileName, currentSection)
    }

    constructor()
      ensures Snapshot() == Start
    {
      textElements, codeBlocks, sections := [], [], [];
      currentParagraph := [];
      inCodeBlock := false;
      codeBlockLanguage := "";
      codeBlockContent := [];
      codeBlockIndex := 0;
      currentFileName := "";
      currentSection := "";
    }

    /** `flushParagraph`. */
    method EmitParagraph()
      modifies this
      ensures Snapshot() == FlushParagraph(old(Snapshot()))
    {
      if |currentParagraph| > 0 {
        var text := Join(currentParagraph, " ");
        if Trim(text) != "" {
          textElements := textElements + [Paragraph(text)];
        }
        currentParagraph := [];
      }
    }

    /** `flushCodeBlock`. */
    method EmitCodeBlock()
      modifies this
      ensures Snapshot() == FlushCode(old(Snapshot()))
    {
      if |codeBlockContent| > 0 {
        var code := Join(codeBlockContent, "\n");
        var displayLabel := Label(currentFileName, codeBlockLanguage);
        var codeId := CodeId(codeBlockIndex);
        codeBlockIndex := codeBlockIndex + 1;
        var section := if currentSection == "" then None else Some(currentSection);
        codeBlocks := codeBlocks + [CodeBlock(displayLabel, code, codeId, section)];
        codeBlockContent := [];
        codeBlockLanguage := "";
        currentFileName := "";
      }
    }

    /** Flush the paragraph, then push one block. */
    method PushBlock(b: Block)
      modifies this
      ensures Snapshot() == Push(old(Snapshot()), b)
    {
      EmitParagraph();
      textElements := textElements + [b];
    }

    /** The `## ` branch. */
    method SectionHeading(sectionTitle: string)
      modifies this
      ensures Snapshot() == Heading2Line(old(Snapshot()), sectionTitle)
    {
      ghost var target := Heading2Line(Snapshot(), sectionTitle);
      Heading2LineUnfold(Snapshot(), sectionTitle);
      EmitParagraph();
      currentSection := sectionTitle;
      var sectionId := Slug(sectionTitle);
      sections := sections + [Section(sectionId, sectionTitle, 2)];
      textElements := textElements + [Heading2(sectionTitle, sectionId)];
      assert textElements == target.text && sections == target.sections && currentSection == target.section;
    }

    /** The `### ` branch. */
    method SubHeading(headerText: string, fileHeader: string -> Option<string>)
      modifies this
      ensures Snapshot() == Heading3Line(old(Snapshot()), headerText, fileHeader)
    {
      EmitParagraph();
      if currentSection == "" {
        currentSection := headerText;
      }
      var fileHeaderMatch := fileHeader(headerText);
      if fileHeaderMatch.Some? {
        currentFileName := fileHeaderMatch.value;
        textElements := textElements + [Heading3(headerText, None)];
      } else {
        var sectionId := Slug(headerText);
        sections := sections + [Section(sectionId, headerText, 3)];
        textElements := textElements + [Heading3(headerText, Some(sectionId))];
      }
    }

    /** The branches for a line outside a code block; `Classify` tests them in the source's order. */
    method ProcessOutline(line: string, fileHeader: string -> Option<string>)
      modifies this
      ensures Snapshot() == Outline(old(Snapshot()), line, fileHeader)
    {
      var kind := Classify(line);
      if kind.Title? {
        PushBlock(Heading1(kind.text));
      } else if kind.SectionTitle? {
        SectionHeading(kind.title);
      } else if kind.SubTitle? {
        SubHeading(kind.header, fileHeader);
      } else if kind.Bullet? {
        PushBlock(BulletItem(kind.item));
      } else if kind.Numbered? {
        PushBlock(NumberedItem(kind.item));
      } else if kind.Image? {
        PushBlock(Figure(kind.alt, kind.url));
      } else if kind.HorizontalRule? {
        PushBlock(Rule);
      } else if kind.Blank? {
        EmitParagraph();
      } else {
        currentParagraph := currentParagraph + [line];
      }
    }

    /** The body of the `forEach` for one line. */
    method ProcessLine(line: string, fileHeader: string -> Option<string>)
      modifies this
      ensures Snapshot() == Step(old(Snapshot()), line, fileHeader)
    {
      if IsFence(line) {
        FenceLine(line);
      } else if inCodeBlock {
        codeBlockContent := codeBlockContent + [line];
      } else {
        ProcessOutline(line, fileHeader);
      }
    }

    /** The fence branch: close the open block, or flush the paragraph and open one. */
    method FenceLine(line: string)
      requires IsFence(line)
      modifies this
      ensures Snapshot() == Fence(old(Snapshot()), line)
    {
      if inCodeBlock {
        CloseBlock();
      } else {
        OpenBlock(Trim(line[3..]));
      }
    }

    /** A fence inside a block: emit the block and leave it. */
    method CloseBlock()
      modifies this
      ensures Snapshot() == FlushCode(old(Snapshot())).(inCode := false)
    {
      EmitCodeBlock();
      inCodeBlock := false;
    }

    /** A fence outside a block: flush the paragraph and enter a block of the given language. */
    method OpenBlock(language: string)
      modifies this
      ensures Snapshot() == FlushParagraph(old(Snapshot())).(inCode := true, language := language)
    {
      EmitParagraph();
      inCodeBlock := true;
      codeBlockLanguage := language;
    }
  }

  /** `parseMarkdown`: every line through the loop body, then the two final flushes. */
  method ParseMarkdown(content: string, fileHeader: string -> Option<string>) returns (result: Parsed)
    ensures result == Parse(content, fileHeader)
  {
    var lines := Split(content);
    var parser := new LineParser();
    var i := 0;
    while i < |lines|
      invariant 0 <= i <= |lines|
      invariant Run(lines[i..], parser.Snapshot(), fileHeader) == Run(lines, Start, fileHeader)
    {
      assert lines[i..][1..] == lines[i + 1..];
      parser.ProcessLine(lines[i], fileHeader);
      i := i + 1;
    }
    parser.EmitParagraph();
    parser.EmitCodeBlock();
    result := Parsed(parser.textElements, parser.codeBlocks, parser.sections);
  }
}
