/**
 * Exporting generated text: the content is cut into sections at blank lines
 * ("\n\n"); a section starting with '#' is a heading. Word export makes one
 * paragraph per section. PDF export draws the wrapped lines of each section
 * down the page with a cursor `y`, starting a new page when the cursor has
 * passed the bottom margin.
 *
 * Line wrapping (`splitTextToSize`) depends on font metrics, so the PDF
 * export takes it as a parameter `wrap` of the text and the current font.
 */
module ExportUtils {
  import opened Wrappers
  import opened Strings

  // ---------------------------------------------------------------------
  // Sections and headings

  const SectionBreak := "\n\n"

  /** `content.split('\n\n')`. */
  function Sections(content: string): (sections: seq<string>)
    ensures |sections| >= 1
  {
    Split(content, SectionBreak)
  }

  /**
   * Sectioning loses nothing: there is at least one section, none holds a
   * blank line, and joining them with "\n\n" gives back the content.
   */
  lemma SectionsRoundTrip(content: string)
    ensures |Sections(content)| >= 1
    ensures Join(Sections(content), SectionBreak) == content
    ensures forall i :: 0 <= i < |Sections(content)| ==> Free(Sections(content)[i], SectionBreak)
  {
    JoinSplit(content, SectionBreak);
    forall i | 0 <= i < |Sections(content)|
      ensures Free(Sections(content)[i], SectionBreak)
    {
      SplitPieceFree(content, SectionBreak, i);
    }
  }

  /** A section as both exports read it. */
  datatype Block = Heading(text: string) | Plain(text: string)

  /**
   * A section is a heading exactly when it starts with '#'; the heading's
   * text drops that first '#' (and no other) and is then trimmed. Any other
   * section is kept as it is.
   */
  function Classify(section: string): (b: Block)
    ensures b.Heading? <==> StartsWith(section, '#')
    ensures b.Heading? ==> b.text == Trim(section[1..])
    ensures b.Plain? ==> b.text == section
  {
    if StartsWith(section, '#') then Heading(Trim(RemoveFirst(section, '#'))) else Plain(section)
  }

  /**
   * A heading's text is the rest of its section, after the first '#', with
   * whitespace cut from both ends: it neither starts nor ends with
   * whitespace, and trimming it again changes nothing.
   */
  lemma HeadingText(section: string)
    requires StartsWith(section, '#')
    ensures var t := Classify(section).text;
            && (t == [] || (!IsWhitespace(t[0]) && !IsWhitespace(t[|t| - 1])))
            && Trim(t) == t
  {
    TrimSlice(section[1..]);
  }

  // ---------------------------------------------------------------------
  // Word export

  /** A docx paragraph: its text, and whether it is styled as a first-level heading. */
  datatype Paragraph = Paragraph(text: string, heading1: bool)

  /** The document built by `exportToWord` and the name it is downloaded under. */
  datatype WordFile = WordFile(paragraphs: seq<Paragraph>, downloadName: string)

  function ToParagraph(b: Block): Paragraph {
    match b
    case Heading(t) => Paragraph(t, true)
    case Plain(t) => Paragraph(t, false)
  }

  /**
   * `exportToWord`: one paragraph per section, in order, a first-level
   * heading exactly for the sections that start with '#'.
   */
  function ExportToWord(content: string, filename: string): (w: WordFile)
    ensures |w.paragraphs| == |Sections(content)|
    ensures forall i :: 0 <= i < |w.paragraphs| ==>
              && (w.paragraphs[i].heading1 <==> StartsWith(Sections(content)[i], '#'))
              && (w.paragraphs[i].heading1 ==> w.paragraphs[i].text == Trim(Sections(content)[i][1..]))
              && (!w.paragraphs[i].heading1 ==> w.paragraphs[i].text == Sections(content)[i])
    ensures w.downloadName == filename + ".docx"
  {
    var sections := Sections(content);
    WordFile(seq(|sections|, i requires 0 <= i < |sections| => ToParagraph(Classify(sections[i]))), filename + ".docx")
  }

  function Texts(ps: seq<Paragraph>): (r: seq<string>)
    ensures |r| == |ps|
    ensures forall i :: 0 <= i < |ps| ==> r[i] == ps[i].text
  {
    seq(|ps|, i requires 0 <= i < |ps| => ps[i].text)
  }

  /**
   * Content without headings survives Word export intact: joining the
   * paragraphs' texts with blank lines gives back the content.
   */
  lemma WordRoundTrip(content: string, filename: string)
    requires forall i :: 0 <= i < |Sections(content)| ==> !StartsWith(Sections(content)[i], '#')
    ensures Join(Texts(ExportToWord(content, filename).paragraphs), SectionBreak) == content
    ensures forall p :: p in ExportToWord(content, filename).paragraphs ==> !p.heading1
  {
    assert Texts(ExportToWord(content, filename).paragraphs) == Sections(content);
    SectionsRoundTrip(content);
  }

  // ---------------------------------------------------------------------
  // PDF layout, as a function of the sections

  const PageTop := 20      // where the cursor restarts on a new page
  const PageBottom := 280  // a line is never started below this
  const FirstLineY := 40   // the cursor under the title
  const HeadingStep := 10
  const BodyStep := 7
  const SectionGap := 5

  /** A font as jsPDF holds it: a size in points, bold or normal (always helvetica here). */
  datatype Font = Font(size: nat, bold: bool)

  const TitleFont := Font(20, true)
  const HeadingFont := Font(12, true)
  const BodyFont := Font(12, false)

  /** A line drawn on the PDF: the page (0 is the first), the baseline `y`, the text and its font. Every line is drawn at x = 15. */
  datatype Placed = Placed(page: nat, y: int, text: string, font: Font)

  /** The drawing position: the current page and `y`. */
  datatype Cursor = Cursor(page: nat, y: int)

  /** Lines drawn so far and the cursor after them. */
  datatype Layout = Layout(placed: seq<Placed>, cursor: Cursor)

  /** The check before each line: past the bottom margin, move to the top of a new page. */
  function BeforeLine(c: Cursor): (d: Cursor)
    ensures c.y > PageBottom ==> d == Cursor(c.page + 1, PageTop)
    ensures c.y <= PageBottom ==> d == c
  {
    if c.y > PageBottom then Cursor(c.page + 1, PageTop) else c
  }

  /**
   * The lines of one section, each drawn after the check and followed by an
   * advance of `step`: one placed line per wrapped line, and the cursor never
   * goes back a page.
   */
  function LayoutLines(lines: seq<string>, font: Font, step: int, c: Cursor): (r: Layout)
    ensures |r.placed| == |lines|
    ensures r.cursor.page >= c.page
    decreases |lines|
  {
    if |lines| == 0 then Layout([], c)
    else
      var prev := LayoutLines(lines[..|lines| - 1], font, step, c);
      var at := BeforeLine(prev.cursor);
      Layout(prev.placed + [Placed(at.page, at.y, lines[|lines| - 1], font)], Cursor(at.page, at.y + step))
  }

  /** Every wrapped line is drawn once, in order, with its own text, in `font`. */
  lemma {:induction false} LinesPlaced(lines: seq<string>, font: Font, step: int, c: Cursor)
    ensures var r := LayoutLines(lines, font, step, c);
            forall k :: 0 <= k < |lines| ==> r.placed[k].text == lines[k] && r.placed[k].font == font
    decreases |lines|
  {
    if |lines| > 0 {
      var init := lines[..|lines| - 1];
      LinesPlaced(init, font, step, c);
      var r := LayoutLines(lines, font, step, c);
      var prev := LayoutLines(init, font, step, c);
      forall k | 0 <= k < |lines|
        ensures r.placed[k].text == lines[k] && r.placed[k].font == font
      {
        if k < |lines| - 1 {
          assert r.placed[k] == prev.placed[k];
          assert lines[k] == init[k];
        }
      }
    }
  }

  /** One section: a heading's lines advance 10 each; a plain section's 7 each, then 5 more. */
  function LayoutBlock(b: Block, wrap: (string, Font) -> seq<string>, c: Cursor): (r: Layout)
    ensures |r.placed| == |BlockLines(b, wrap)|
    ensures r.cursor.page >= c.page
  {
    match b
    case Heading(t) => LayoutLines(wrap(t, HeadingFont), HeadingFont, HeadingStep, c)
    case Plain(t) =>
      var body := LayoutLines(wrap(t, BodyFont), BodyFont, BodyStep, c);
      Layout(body.placed, Cursor(body.cursor.page, body.cursor.y + SectionGap))
  }

  /** The sections in order, each starting where the previous one left the cursor. */
  function LayoutBlocks(blocks: seq<Block>, wrap: (string, Font) -> seq<string>, c: Cursor): Layout
    decreases |blocks|
  {
    if |blocks| == 0 then Layout([], c)
    else
      var prev := LayoutBlocks(blocks[..|blocks| - 1], wrap, c);
      var last := LayoutBlock(blocks[|blocks| - 1], wrap, prev.cursor);
      Layout(prev.placed + last.placed, last.cursor)
  }

  /** Laying out one more section extends the layout of the ones before it. */
  lemma BlocksSnoc(blocks: seq<Block>, i: nat, wrap: (string, Font) -> seq<string>, c: Cursor)
    requires i < |blocks|
    ensures var prev := LayoutBlocks(blocks[..i], wrap, c);
            var next := LayoutBlock(blocks[i], wrap, prev.cursor);
            LayoutBlocks(blocks[..i + 1], wrap, c) == Layout(prev.placed + next.placed, next.cursor)
  {
    assert blocks[..i + 1][..i] == blocks[..i];
  }

  /**
   * Concatenation regrouped. Stated apart so that the loop in DrawSections
   * gets this one instance instead of searching for it.
   */
  lemma Appended(a: seq<Placed>, b: seq<Placed>, c: seq<Placed>)
    ensures (a + b) + c == a + (b + c)
  {
  }

  /** The sections of the content, each classified as heading or plain text. */
  function Blocks(sections: seq<string>): (bs: seq<Block>)
    ensures |bs| == |sections|
  {
    seq(|sections|, i requires 0 <= i < |sections| => Classify(sections[i]))
  }

  /** The block at index `i` is the classified section `i`; DrawSections uses this one instance. */
  lemma BlockAt(sections: seq<string>, i: nat)
    requires i < |sections|
    ensures Blocks(sections)[i] == Classify(sections[i])
  {
  }

  /** The body of the PDF: every section of the content, from the cursor under the title. */
  function PdfLayout(content: string, wrap: (string, Font) -> seq<string>): Layout {
    LayoutBlocks(Blocks(Sections(content)), wrap, Cursor(0, FirstLineY))
  }

  /** The title line: the file name in the title font at the top of the first page. */
  function TitleLine(filename: string): Placed {
    Placed(0, PageTop, filename, TitleFont)
  }

  // ---------------------------------------------------------------------
  // Properties of the PDF layout

  /** `b` comes after `a` in reading order: lower on the same page, or at the top of the next page. */
  predicate Precedes(a: Placed, b: Placed) {
    (b.page == a.page && b.y > a.y) || (b.page == a.page + 1 && b.y == PageTop)
  }

  predicate InReadingOrder(ps: seq<Placed>) {
    forall k :: 0 <= k < |ps| - 1 ==> Precedes(ps[k], ps[k + 1])
  }

  /** A line drawn within the margins. */
  predicate WithinMargins(p: Placed) {
    PageTop <= p.y <= PageBottom
  }

  /**
   * A layout produced from cursor `c` is in reading order, starts at or after
   * `c`, leaves its cursor below its last line (or, drawing nothing, no
   * higher than `c` on the same page), keeps every line within the margins
   * and never moves the cursor above the top margin.
   */
  predicate Sound(l: Layout, c: Cursor) {
    && InReadingOrder(l.placed)
    && (forall k :: 0 <= k < |l.placed| ==> WithinMargins(l.placed[k]))
    && l.cursor.y >= PageTop
    && (l.placed == [] ==> l.cursor.page == c.page && l.cursor.y >= c.y)
    && (l.placed != [] ==>
          && ((l.placed[0].page == c.page && l.placed[0].y >= c.y) || (l.placed[0].page == c.page + 1 && l.placed[0].y == PageTop))
          && l.cursor.page == l.placed[|l.placed| - 1].page && l.cursor.y > l.placed[|l.placed| - 1].y)
  }

  /** Two sound layouts, the second starting where the first ends, make a sound layout. */
  lemma SoundConcat(a: Layout, b: Layout, c: Cursor)
    requires Sound(a, c) && Sound(b, a.cursor)
    ensures Sound(Layout(a.placed + b.placed, b.cursor), c)
  {
    var ps := a.placed + b.placed;
    forall k | 0 <= k < |ps| - 1
      ensures Precedes(ps[k], ps[k + 1])
    {
      if k + 1 < |a.placed| {
        assert ps[k] == a.placed[k] && ps[k + 1] == a.placed[k + 1];
      } else if k + 1 == |a.placed| {
        assert ps[k] == a.placed[k] && ps[k + 1] == b.placed[0];
      } else {
        assert ps[k] == b.placed[k - |a.placed|] && ps[k + 1] == b.placed[k + 1 - |a.placed|];
      }
    }
    forall k | 0 <= k < |ps|
      ensures WithinMargins(ps[k])
    {
      if k < |a.placed| {
        assert ps[k] == a.placed[k];
      } else {
        assert ps[k] == b.placed[k - |a.placed|];
      }
    }
    if a.placed == [] {
      assert ps == b.placed;
    } else if b.placed != [] {
      assert ps[|ps| - 1] == b.placed[|b.placed| - 1];
    }
  }

  /** The lines of one section, drawn from a cursor below the top margin, form a sound layout. */
  lemma {:induction false} LinesSound(lines: seq<string>, font: Font, step: int, c: Cursor)
    requires step > 0 && c.y >= PageTop
    ensures Sound(LayoutLines(lines, font, step, c), c)
    decreases |lines|
  {
    if |lines| > 0 {
      var prev := LayoutLines(lines[..|lines| - 1], font, step, c);
      LinesSound(lines[..|lines| - 1], font, step, c);
      var at := BeforeLine(prev.cursor);
      var one := Layout([Placed(at.page, at.y, lines[|lines| - 1], font)], Cursor(at.page, at.y + step));
      assert Sound(one, prev.cursor);
      SoundConcat(prev, one, c);
    }
  }

  lemma BlockSound(b: Block, wrap: (string, Font) -> seq<string>, c: Cursor)
    requires c.y >= PageTop
    ensures Sound(LayoutBlock(b, wrap, c), c)
  {
    match b
    case Heading(t) =>
      LinesSound(wrap(t, HeadingFont), HeadingFont, HeadingStep, c);
    case Plain(t) =>
      LinesSound(wrap(t, BodyFont), BodyFont, BodyStep, c);
  }

  lemma {:induction false} BlocksSound(blocks: seq<Block>, wrap: (string, Font) -> seq<string>, c: Cursor)
    requires c.y >= PageTop
    ensures Sound(LayoutBlocks(blocks, wrap, c), c)
    decreases |blocks|
  {
    if |blocks| > 0 {
      var prev := LayoutBlocks(blocks[..|blocks| - 1], wrap, c);
      BlocksSound(blocks[..|blocks| - 1], wrap, c);
      BlockSound(blocks[|blocks| - 1], wrap, prev.cursor);
      SoundConcat(prev, LayoutBlock(blocks[|blocks| - 1], wrap, prev.cursor), c);
    }
  }

  /** Every line of the exported PDF, the title included, is drawn with 20 <= y <= 280. */
  lemma PdfWithinMargins(content: string, filename: string, wrap: (string, Font) -> seq<string>)
    ensures var ps := [TitleLine(filename)] + PdfLayout(content, wrap).placed;
            forall k :: 0 <= k < |ps| ==> WithinMargins(ps[k])
  {
    var l := PdfLayout(content, wrap);
    BlocksSound(Blocks(Sections(content)), wrap, Cursor(0, FirstLineY));
    var ps := [TitleLine(filename)] + l.placed;
    forall k | 0 <= k < |ps|
      ensures WithinMargins(ps[k])
    {
      if k > 0 {
        assert ps[k] == l.placed[k - 1];
      }
    }
  }

  /**
   * The exported PDF is in reading order: after the title, each line is lower
   * on the same page than the line before it, or at the top of the next page.
   */
  lemma PdfReadingOrder(content: string, filename: string, wrap: (string, Font) -> seq<string>)
    ensures InReadingOrder([TitleLine(filename)] + PdfLayout(content, wrap).placed)
  {
    var l := PdfLayout(content, wrap);
    BlocksSound(Blocks(Sections(content)), wrap, Cursor(0, FirstLineY));
    var title := Layout([TitleLine(filename)], Cursor(0, FirstLineY));
    assert Sound(title, Cursor(0, PageTop));
    SoundConcat(title, l, Cursor(0, PageTop));
  }

  /** In reading order, no line is on a later page than the last line. */
  lemma {:induction false} PagesUpToLast(ps: seq<Placed>)
    requires |ps| > 0 && InReadingOrder(ps)
    ensures forall k :: 0 <= k < |ps| ==> ps[k].page <= ps[|ps| - 1].page
    decreases |ps|
  {
    if |ps| > 1 {
      var init := ps[..|ps| - 1];
      forall k | 0 <= k < |init| - 1
        ensures Precedes(init[k], init[k + 1])
      {
        assert init[k] == ps[k] && init[k + 1] == ps[k + 1];
      }
      PagesUpToLast(init);
      assert Precedes(ps[|ps| - 2], ps[|ps| - 1]);
      forall k | 0 <= k < |ps|
        ensures ps[k].page <= ps[|ps| - 1].page
      {
        if k < |ps| - 1 {
          assert ps[k] == init[k];
        }
      }
    }
  }

  /**
   * Every line of the exported PDF, the title included, is on a page the
   * document has: none is on a later page than the final cursor.
   */
  lemma PdfPagesExist(content: string, filename: string, wrap: (string, Font) -> seq<string>)
    ensures var ps := [TitleLine(filename)] + PdfLayout(content, wrap).placed;
            forall k :: 0 <= k < |ps| ==> ps[k].page <= PdfLayout(content, wrap).cursor.page
  {
    var l := PdfLayout(content, wrap);
    var ps := [TitleLine(filename)] + l.placed;
    BlocksSound(Blocks(Sections(content)), wrap, Cursor(0, FirstLineY));
    PdfReadingOrder(content, filename, wrap);
    PagesUpToLast(ps);
    assert ps[|ps| - 1].page <= l.cursor.page;
  }

  /** The first `n` lines of a section are laid out as if they were all there is. */
  lemma {:induction false} LinesPrefix(lines: seq<string>, font: Font, step: int, c: Cursor, n: nat)
    requires n <= |lines|
    ensures LayoutLines(lines, font, step, c).placed[..n] == LayoutLines(lines[..n], font, step, c).placed
    decreases |lines|
  {
    if n == |lines| {
      assert lines[..n] == lines;
    } else {
      var init := lines[..|lines| - 1];
      LinesPrefix(init, font, step, c, n);
      assert init[..n] == lines[..n];
    }
  }

  /**
   * The page-break rule: each line is drawn where the check puts the cursor
   * left by the lines before it, and it opens a new page exactly when that
   * cursor is past y = 280.
   */
  lemma PageBreakRule(lines: seq<string>, font: Font, step: int, c: Cursor, k: nat)
    requires k < |lines|
    ensures var before := LayoutLines(lines[..k], font, step, c).cursor;
            var p := LayoutLines(lines, font, step, c).placed[k];
            && p.page == BeforeLine(before).page && p.y == BeforeLine(before).y
            && (p.page == before.page + 1 <==> before.y > PageBottom)
            && (p.page == before.page <==> before.y <= PageBottom)
  {
    LinesPrefix(lines, font, step, c, k + 1);
    assert lines[..k + 1][..k] == lines[..k];
  }

  /**
   * Without a page break, a section moves the cursor down by 10 per heading
   * line, or by 7 per body line and then 5 more.
   */
  lemma SectionAdvance(b: Block, wrap: (string, Font) -> seq<string>, c: Cursor)
    requires LayoutBlock(b, wrap, c).cursor.page == c.page
    ensures var n := |BlockLines(b, wrap)|;
            LayoutBlock(b, wrap, c).cursor.y ==
              if b.Heading? then c.y + HeadingStep * n else c.y + BodyStep * n + SectionGap
  {
    match b
    case Heading(t) =>
      LinesAdvance(wrap(t, HeadingFont), HeadingFont, HeadingStep, c);
    case Plain(t) =>
      LinesAdvance(wrap(t, BodyFont), BodyFont, BodyStep, c);
  }

  lemma {:induction false} LinesAdvance(lines: seq<string>, font: Font, step: int, c: Cursor)
    requires LayoutLines(lines, font, step, c).cursor.page == c.page
    ensures LayoutLines(lines, font, step, c).cursor.y == c.y + step * |lines|
    decreases |lines|
  {
    if |lines| > 0 {
      var prev := LayoutLines(lines[..|lines| - 1], font, step, c);
      assert prev.cursor.page == c.page;
      LinesAdvance(lines[..|lines| - 1], font, step, c);
    }
  }

  /** The wrapped lines of one section, in the font it is wrapped in. */
  function BlockLines(b: Block, wrap: (string, Font) -> seq<string>): seq<string> {
    match b
    case Heading(t) => wrap(t, HeadingFont)
    case Plain(t) => wrap(t, BodyFont)
  }

  /** The wrapped lines of all sections, in order. */
  function AllLines(blocks: seq<Block>, wrap: (string, Font) -> seq<string>): seq<string>
    decreases |blocks|
  {
    if |blocks| == 0 then []
    else AllLines(blocks[..|blocks| - 1], wrap) + BlockLines(blocks[|blocks| - 1], wrap)
  }

  function LineTexts(ps: seq<Placed>): (r: seq<string>)
    ensures |r| == |ps|
    ensures forall k :: 0 <= k < |ps| ==> r[k] == ps[k].text
  {
    seq(|ps|, k requires 0 <= k < |ps| => ps[k].text)
  }

  /** One section draws exactly its own wrapped lines. */
  lemma BlockDrawsItsLines(b: Block, wrap: (string, Font) -> seq<string>, c: Cursor)
    ensures LineTexts(LayoutBlock(b, wrap, c).placed) == BlockLines(b, wrap)
  {
    match b
    case Heading(t) => LinesPlaced(wrap(t, HeadingFont), HeadingFont, HeadingStep, c);
    case Plain(t) => LinesPlaced(wrap(t, BodyFont), BodyFont, BodyStep, c);
  }

  /** Nothing is dropped or repeated: the PDF draws exactly the wrapped lines of every section, in order. */
  lemma {:induction false} BlocksDrawEveryLine(blocks: seq<Block>, wrap: (string, Font) -> seq<string>, c: Cursor)
    ensures LineTexts(LayoutBlocks(blocks, wrap, c).placed) == AllLines(blocks, wrap)
    decreases |blocks|
  {
    if |blocks| > 0 {
      var init := blocks[..|blocks| - 1];
      BlocksDrawEveryLine(init, wrap, c);
      var prev := LayoutBlocks(init, wrap, c);
      BlockDrawsItsLines(blocks[|blocks| - 1], wrap, prev.cursor);
      var last := LayoutBlock(blocks[|blocks| - 1], wrap, prev.cursor).placed;
      assert LineTexts(prev.placed + last) == LineTexts(prev.placed) + LineTexts(last);
    }
  }

  // ---------------------------------------------------------------------
  // PDF export, as the imperative loop runs it

  /** The part of a jsPDF document the export drives: its pages, current font, drawn lines and saved name. */
  class PdfDoc {
    var pageCount: nat
    var font: Font
    var drawn: seq<Placed>
    var savedAs: Option<string>

    /** There is always a current page: the last one. */
    predicate Valid()
      reads this
    {
      pageCount >= 1
    }

    /** `new jsPDF()`: one empty page in the default 16-point normal font. */
    constructor ()
      ensures Valid()
      ensures pageCount == 1 && font == Font(16, false) && drawn == [] && savedAs == None
    {
      pageCount := 1;
      font := Font(16, false);
      drawn := [];
      savedAs := None;
    }

    /** `setFontSize` and `setFont` together. */
    method SetFont(f: Font)
      requires Valid()
      modifies this
      ensures Valid()
      ensures font == f && pageCount == old(pageCount) && drawn == old(drawn) && savedAs == old(savedAs)
    {
      font := f;
    }

    /** `addPage`: a new page, which becomes the current one. */
    method AddPage()
      requires Valid()
      modifies this
      ensures Valid()
      ensures pageCount == old(pageCount) + 1 && font == old(font) && drawn == old(drawn) && savedAs == old(savedAs)
    {
      pageCount := pageCount + 1;
    }

    /** `text(line, 15, y)`: draws on the current page in the current font. */
    method Text(line: string, y: int)
      requires Valid()
      modifies this
      ensures Valid()
      ensures drawn == old(drawn) + [Placed(pageCount - 1, y, line, font)]
      ensures pageCount == old(pageCount) && font == old(font) && savedAs == old(savedAs)
    {
      drawn := drawn + [Placed(pageCount - 1, y, line, font)];
    }

    /** `save(name)`. */
    method Save(name: string)
      requires Valid()
      modifies this
      ensures Valid()
      ensures savedAs == Some(name) && pageCount == old(pageCount) && font == old(font) && drawn == old(drawn)
    {
      savedAs := Some(name);
    }
  }

  /**
   * Draws `lines` from cursor (current page, y), checking the bottom margin
   * before each line and advancing `step` after it: the inner `forEach` of
   * both branches of `exportToPDF`.
   */
  method DrawLines(doc: PdfDoc, lines: seq<string>, step: int, y0: int) returns (y: int)
    requires doc.Valid()
    modifies doc
    ensures doc.Valid()
    ensures var l := LayoutLines(lines, old(doc.font), step, Cursor(old(doc.pageCount) - 1, y0));
            && doc.drawn == old(doc.drawn) + l.placed
            && l.cursor == Cursor(doc.pageCount - 1, y)
    ensures doc.font == old(doc.font) && doc.savedAs == old(doc.savedAs)
  {
    ghost var start := Cursor(doc.pageCount - 1, y0);
    y := y0;
    var j := 0;
    while j < |lines|
      invariant 0 <= j <= |lines|
      invariant doc.Valid() && doc.font == old(doc.font) && doc.savedAs == old(doc.savedAs)
      invariant var l := LayoutLines(lines[..j], doc.font, step, start);
                && doc.drawn == old(doc.drawn) + l.placed
                && l.cursor == Cursor(doc.pageCount - 1, y)
    {
      assert lines[..j + 1][..j] == lines[..j];
      if y > PageBottom {
        doc.AddPage();
        y := PageTop;
      }
      doc.Text(lines[j], y);
      y := y + step;
      j := j + 1;
    }
    assert lines[..j] == lines;
  }

  /** One iteration of the outer `forEach` of `exportToPDF`: one section, in its font. */
  method DrawSection(doc: PdfDoc, section: string, wrap: (string, Font) -> seq<string>, y0: int) returns (y: int)
    requires doc.Valid() && doc.font == BodyFont
    modifies doc
    ensures doc.Valid() && doc.font == BodyFont && doc.savedAs == old(doc.savedAs)
    ensures var l := LayoutBlock(Classify(section), wrap, Cursor(old(doc.pageCount) - 1, y0));
            && doc.drawn == old(doc.drawn) + l.placed
            && l.cursor == Cursor(doc.pageCount - 1, y)
  {
    if StartsWith(section, '#') {
      doc.SetFont(HeadingFont);
      var heading := Trim(RemoveFirst(section, '#'));
      y := DrawLines(doc, wrap(heading, HeadingFont), HeadingStep, y0);
      doc.SetFont(BodyFont);
    } else {
      y := DrawLines(doc, wrap(section, BodyFont), BodyStep, y0);
      y := y + SectionGap;
    }
  }

  /**
   * The outer `forEach` of `exportToPDF`: from y = 40 on the current page,
   * draw each section in turn.
   */
  method DrawSections(doc: PdfDoc, sections: seq<string>, wrap: (string, Font) -> seq<string>) returns (y: int)
    requires doc.Valid() && doc.font == BodyFont
    modifies doc
    ensures doc.Valid() && doc.font == BodyFont && doc.savedAs == old(doc.savedAs)
    ensures var l := LayoutBlocks(Blocks(sections), wrap, Cursor(old(doc.pageCount) - 1, FirstLineY));
            && doc.drawn == old(doc.drawn) + l.placed
            && l.cursor == Cursor(doc.pageCount - 1, y)
  {
    ghost var blocks := Blocks(sections);
    ghost var start := Cursor(doc.pageCount - 1, FirstLineY);
    y := FirstLineY;
    var i := 0;
    while i < |sections|
      invariant 0 <= i <= |sections|
      invariant doc.Valid() && doc.font == BodyFont && doc.savedAs == old(doc.savedAs)
      invariant var l := LayoutBlocks(blocks[..i], wrap, start);
                && doc.drawn == old(doc.drawn) + l.placed
                && l.cursor == Cursor(doc.pageCount - 1, y)
    {
      ghost var prev := LayoutBlocks(blocks[..i], wrap, start);
      ghost var next := LayoutBlock(blocks[i], wrap, prev.cursor);
      BlocksSnoc(blocks, i, wrap, start);
      BlockAt(sections, i);
      y := DrawSection(doc, sections[i], wrap, y);
      Appended(old(doc.drawn), prev.placed, next.placed);
      i := i + 1;
    }
    assert blocks[..i] == blocks;
  }

  /** The start of `exportToPDF`: a new document with the title drawn in the title font, then the body font set. */
  method TitledDoc(filename: string) returns (doc: PdfDoc)
    ensures fresh(doc) && doc.Valid()
    ensures doc.pageCount == 1 && doc.drawn == [TitleLine(filename)] && doc.font == BodyFont && doc.savedAs == None
  {
    doc := new PdfDoc();
    doc.SetFont(TitleFont);
    doc.Text(filename, PageTop);
    doc.SetFont(BodyFont);
  }

  /**
   * `exportToPDF`: the title, then every section laid out as PdfLayout says,
   * then the file saved as `<filename>.pdf`.
   */
  method ExportToPdf(content: string, filename: string, wrap: (string, Font) -> seq<string>) returns (doc: PdfDoc)
    ensures fresh(doc) && doc.Valid()
    ensures doc.drawn == [TitleLine(filename)] + PdfLayout(content, wrap).placed
    ensures doc.pageCount == PdfLayout(content, wrap).cursor.page + 1
    ensures doc.savedAs == Some(filename + ".pdf")
  {
    doc := TitledDoc(filename);
    var sections := Sections(content);
    var y := DrawSections(doc, sections, wrap);
    doc.Save(filename + ".pdf");
  }
}
