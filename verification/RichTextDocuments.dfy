/** Whole descriptions: paragraphs of lines, and bulleted and numbered lists, with styled text in
    them. Converting the HTML of one gives its blocks in order, paragraphs set off by one blank line,
    list items on lines of their own, and every item of a numbered list with the next number. */
module RichTextDocuments {
  import opened Prelude
  import opened RichText
  import opened RichTextMeaning
  import opened RichTextTrees

  /** A paragraph breaks its lines with one `<br>` and `more` of them after it. */
  datatype Block =
    | Paragraph(attributes: string, lines: seq<Forest>, more: nat)
    | Listing(ordered: bool, items: seq<Forest>)

  // ---------------------------------------------------------------- its HTML

  function Breaks(more: nat): string { StartTag("br", "") + if more == 0 then "" else Breaks(more - 1) }

  function PrintLines(lines: seq<Forest>, more: nat): string {
    if lines == [] then ""
    else PrintHtml(lines[0]) + (if |lines| == 1 then "" else Breaks(more) + PrintLines(lines[1..], more))
  }

  function PrintItems(items: seq<Forest>): string {
    if items == [] then "" else StartTag("li", "") + (PrintHtml(items[0]) + (EndTag("li") + PrintItems(items[1..])))
  }

  function ListName(ordered: bool): string { if ordered then "ol" else "ul" }

  function PrintBlock(b: Block): string {
    match b
    case Paragraph(attributes, lines, more) => StartTag("p", attributes) + (PrintLines(lines, more) + EndTag("p"))
    case Listing(ordered, items) => StartTag(ListName(ordered), "") + (PrintItems(items) + EndTag(ListName(ordered)))
  }

  function PrintDocument(doc: seq<Block>): string {
    if doc == [] then "" else PrintBlock(doc[0]) + PrintDocument(doc[1..])
  }

  // ---------------------------------------------------------------- what it is shown as

  /** What stands right before the next block: nothing, a paragraph, a bulleted item, or the item with
      that number. */
  datatype Last = Fresh | AfterParagraph | AfterBullet | AfterNumber(number: nat)

  /** The number of the next numbered item: a list that follows another goes on counting. */
  function NextNumber(last: Last): nat { if last.AfterNumber? then (last.number + 1) % 0x1_0000_0000 else 1 }

  function Marker(ordered: bool, last: Last): string { if ordered then Decimal(NextNumber(last)) + ". " else [0x2022 as char, ' '] }

  function AfterItem(ordered: bool, last: Last): Last { if ordered then AfterNumber(NextNumber(last)) else AfterBullet }

  predicate InList(last: Last) { last.AfterBullet? || last.AfterNumber? }

  function ShownItems(ordered: bool, items: seq<Forest>, last: Last): string {
    if items == [] then ""
    else
      (if InList(last) then "\n" else "") + Marker(ordered, last) + PrintPango(items[0]) + ShownItems(ordered, items[1..], AfterItem(ordered, last))
  }

  function AfterItems(ordered: bool, items: seq<Forest>, last: Last): Last {
    if items == [] then last else AfterItems(ordered, items[1..], AfterItem(ordered, last))
  }

  function ShownLines(lines: seq<Forest>): string {
    if lines == [] then "" else PrintPango(lines[0]) + (if |lines| == 1 then "" else "\n" + ShownLines(lines[1..]))
  }

  function ShownBlock(b: Block, last: Last): string {
    match b
    case Paragraph(_, lines, _) => (if InList(last) then "\n\n" else "") + ShownLines(lines) + "\n\n"
    case Listing(ordered, items) => ShownItems(ordered, items, last)
  }

  function AfterBlock(b: Block, last: Last): Last {
    match b
    case Paragraph(_, _, _) => AfterParagraph
    case Listing(ordered, items) => AfterItems(ordered, items, last)
  }

  function ShownDocument(doc: seq<Block>, last: Last): string {
    if doc == [] then "" else ShownBlock(doc[0], last) + ShownDocument(doc[1..], AfterBlock(doc[0], last))
  }

  /** A line with something on it and no blank at either end. */
  predicate LineOk(f: Forest) { WellFormed(f) && Edged(PrintPango(f)) }

  predicate Edged(s: string) { s != "" && s[0] != ' ' && s[|s| - 1] != ' ' }

  predicate LinesOk(lines: seq<Forest>) { forall f :: f in lines ==> LineOk(f) }

  predicate BlockOk(b: Block) {
    match b
    case Paragraph(attributes, lines, _) => AttributesOk(attributes) && lines != [] && LinesOk(lines)
    case Listing(_, items) => LinesOk(items)
  }

  predicate DocumentOk(doc: seq<Block>) { forall b :: b in doc ==> BlockOk(b) }

  // ---------------------------------------------------------------- the lines

  /** Neither blank nor newline: what trimming and breaking leave alone. */
  predicate SolidEnd(s: string) { s != "" && s[|s| - 1] != '\n' && !Space(s[|s| - 1]) }

  lemma {:induction false} PangoHasOnlyBlanks(f: Forest)
    requires WellFormed(f)
    ensures '\t' !in PrintPango(f) && '\r' !in PrintPango(f) && '\n' !in PrintPango(f)
    decreases f
  {
    hide Escape, SingleSpaced, BlanksOnly, Names, AttributesOk, StartTag, EndTag, PangoName, LowerAll;
    match f
    case Nothing =>
    case Text(text, rest) =>
      PangoHasOnlyBlanks(rest);
      OnlyBlanks(text);
      EscapeKeepsOthers(text, '\t');
      EscapeKeepsOthers(text, '\r');
      EscapeKeepsOthers(text, '\n');
    case Styling(tag, _, _, inside, rest) =>
      TagsHaveNoBlanks(tag);
      PangoHasOnlyBlanks(inside);
      PangoHasOnlyBlanks(rest);
  }

  lemma TagsHaveNoBlanks(tag: Tag)
    ensures forall c | c in StartTag(PangoName(tag), "") || c in EndTag(PangoName(tag)) :: c != '\t' && c != '\r' && c != '\n'
  {
  }

  lemma OnlyBlanks(text: string)
    requires SingleSpaced(text)
    ensures '\t' !in text && '\r' !in text && '\n' !in text
  {
  }

  lemma LineEnds(out: string, f: Forest)
    requires LineOk(f)
    ensures SolidEnd(out + PrintPango(f)) && TrimEnd(out + PrintPango(f)) == out + PrintPango(f)
    ensures '\n' !in PrintPango(f) && (out + PrintPango(f))[|out + PrintPango(f)| - 1] != '\r'
  {
    hide PrintPango, WellFormed;
    PangoHasOnlyBlanks(f);
    var line := PrintPango(f);
    assert (out + line)[|out + line| - 1] == line[|line| - 1] && line[|line| - 1] in line;
  }

  /** A line may follow anything. */
  lemma LineStands(f: Forest, out: string)
    requires LineOk(f)
    ensures f.Text? ==> StandsAt(f.text, out)
  {
    if f.Text? {
      assert PrintPango(f) == Escape(f.text) + PrintPango(f.afterText);
      if f.text[0] == ' ' { BlankFirst(f.text); }
    }
  }

  lemma BlankFirst(text: string)
    requires text != "" && text[0] == ' '
    ensures Escape(text) != "" && Escape(text)[0] == ' '
  {
  }

  lemma LineScan(f: Forest, p: Pass, rest: string)
    requires LineOk(f) && p.rest == PrintHtml(f) + rest && rest != "" && rest[0] == '<'
    ensures Scan(p) == Scan(p.(out := p.out + PrintPango(f), rest := rest))
  {
    LineStands(f, p.out);
    ForestScan(f, p, rest);
  }

  /** One start tag of the given element. */
  lemma Opens(p: Pass, name: string, attributes: string, rest: string)
    requires p.rest == StartTag(name, attributes) + rest && name in {"p", "br", "ul", "ol", "li"} && AttributesOk(attributes)
    ensures Scan(p) == Scan(OpenElement(p.(rest := rest), name))
  {
    hide Turn, OpenElement, Scan;
    assert LowerAll(name) == name;
    StartTagOpens(p, name, attributes, rest);
    ScanStep(p);
  }

  lemma Closes(p: Pass, name: string, rest: string)
    requires p.rest == EndTag(name) + rest && name in {"p", "ul", "ol", "li"}
    ensures Scan(p) == Scan(CloseElement(p.(rest := rest), name))
  {
    hide Turn, CloseElement, Scan;
    assert LowerAll(name) == name;
    EndTagCloses(p, name, rest);
    ScanStep(p);
  }

  lemma Broken(out: string)
    requires SolidEnd(out)
    ensures LineBreak(out) == out + "\n" && ParagraphBreak(out) == out + "\n\n"
    ensures ParagraphBreak(out + "\n\n") == out + "\n\n"
  {
    assert TrimEnd(out) == out;
    assert EndsWith(out + "\n\n", "\n\n");
    assert TrimEnd(out + "\n\n") == out + "\n\n";
  }

  lemma LinesParts(lines: seq<Forest>, more: nat, rest: string)
    requires |lines| > 1 && LinesOk(lines)
    ensures LineOk(lines[0]) && LinesOk(lines[1..])
    ensures PrintLines(lines, more) + rest == PrintHtml(lines[0]) + (Breaks(more) + (PrintLines(lines[1..], more) + rest))
    ensures (Breaks(more) + (PrintLines(lines[1..], more) + rest))[0] == '<'
  {
    hide PrintHtml, PrintPango, WellFormed, Edged, ShownLines;
    assert lines[0] in lines;
    Regroup(PrintHtml(lines[0]), Breaks(more) + PrintLines(lines[1..], more), rest);
    Regroup(Breaks(more), PrintLines(lines[1..], more), rest);
    assert Breaks(more)[0] == '<';
  }

  lemma ShownAfter(lines: seq<Forest>, out: string)
    requires |lines| > 1 && LinesOk(lines)
    ensures LineOk(lines[0]) && LinesOk(lines[1..])
    ensures out + ShownLines(lines) == (out + PrintPango(lines[0]) + "\n") + ShownLines(lines[1..])
  {
    hide PrintPango, WellFormed, Edged;
    assert lines[0] in lines;
    var line, more := PrintPango(lines[0]), ShownLines(lines[1..]);
    Regroup(out, line, "\n" + more);
    Regroup(out + line, "\n", more);
  }

  lemma LastLineParts(lines: seq<Forest>, more: nat)
    requires |lines| == 1 && LinesOk(lines)
    ensures LineOk(lines[0]) && PrintLines(lines, more) == PrintHtml(lines[0]) && ShownLines(lines) == PrintPango(lines[0])
  {
    hide PrintHtml, PrintPango, WellFormed, Edged;
    assert lines[0] in lines;
    assert PrintHtml(lines[0]) + "" == PrintHtml(lines[0]) && PrintPango(lines[0]) + "" == PrintPango(lines[0]);
  }

  lemma BreakOpens(p: Pass)
    ensures OpenElement(p, "br") == p.(out := LineBreak(p.out))
  {
  }

  /** However many breaks there are, they break the line once. */
  lemma {:induction false} BreaksScan(p: Pass, out: string, more: nat, rest: string)
    requires p.rest == Breaks(more) + rest && SolidEnd(out) && (p.out == out || p.out == out + "\n")
    ensures Scan(p) == Scan(p.(out := out + "\n", rest := rest))
    decreases more
  {
    hide Scan, LineBreak, SolidEnd, StartTag, OpenElement, AttributesOk;
    var next := (if more == 0 then "" else Breaks(more - 1)) + rest;
    assert Breaks(more) + rest == StartTag("br", "") + next;
    NoAttributes();
    Opens(p, "br", "", next);
    BreakOpens(p.(rest := next));
    Broken(out);
    BrokenAgain(out);
    if more > 0 { BreaksScan(p.(out := out + "\n", rest := next), out, more - 1, rest); } else { assert next == rest; }
  }

  lemma NoAttributes()
    ensures AttributesOk("")
  {
  }

  lemma BrokenAgain(out: string)
    requires SolidEnd(out)
    ensures LineBreak(out + "\n") == out + "\n"
  {
    var t := out + "\n";
    assert TrimEnd(t) == t && EndsWith(t, "\n");
    EndIndexAt(t, "\n\n", 0);
  }

  lemma {:induction false} LinesScan(lines: seq<Forest>, more: nat, p: Pass, rest: string)
    requires lines != [] && LinesOk(lines) && p.rest == PrintLines(lines, more) + rest && rest != "" && rest[0] == '<'
    ensures Scan(p) == Scan(p.(out := p.out + ShownLines(lines), rest := rest)) && SolidEnd(p.out + ShownLines(lines))
    decreases |lines|
  {
    hide Scan, PrintPango, PrintHtml, PrintLines, ShownLines, WellFormed, Edged, SolidEnd, Breaks, LinesOk;
    if |lines| == 1 {
      LastLineParts(lines, more);
      LineEnds(p.out, lines[0]);
      LineScan(lines[0], p, rest);
    } else {
      LinesParts(lines, more, rest);
      ShownAfter(lines, p.out);
      LineEnds(p.out, lines[0]);
      var next := PrintLines(lines[1..], more) + rest;
      var q := p.(out := p.out + PrintPango(lines[0]), rest := Breaks(more) + next);
      LineScan(lines[0], p, q.rest);
      BreaksScan(q, q.out, more, next);
      LinesScan(lines[1..], more, q.(out := q.out + "\n", rest := next), rest);
    }
  }

  // ---------------------------------------------------------------- the numbers

  lemma {:induction false} DigitsAppend(a: string, c: char, sofar: nat)
    ensures ParseDigits(a + [c], 10, sofar) ==
            match ParseDigits(a, 10, sofar)
            case None => None
            case Some(v) => if DigitValue(c) >= 10 || v * 10 + DigitValue(c) > 0xFFFF_FFFF then None else Some(v * 10 + DigitValue(c))
  {
    if a == "" {
      assert a + [c] == [c] && [c][1..] == "";
    } else {
      assert (a + [c])[1..] == a[1..] + [c];
      var value := sofar * 10 + DigitValue(a[0]);
      if DigitValue(a[0]) < 10 && value <= 0xFFFF_FFFF { DigitsAppend(a[1..], c, value); }
    }
  }

  lemma {:induction false} DecimalReads(n: nat)
    requires n <= 0xFFFF_FFFF
    ensures Decimal(n) != "" && ParseDigits(Decimal(n), 10, 0) == Some(n)
  {
    var digit := ('0' as int + n % 10) as char;
    if n >= 10 { DecimalReads(n / 10); }
    DigitsAppend(if n < 10 then "" else Decimal(n / 10), digit, 0);
    assert DigitValue(digit) == n % 10;
  }

  lemma DecimalParses(n: nat)
    requires n <= 0xFFFF_FFFF
    ensures ParseU32(Decimal(n), 10) == Some(n)
  {
    DecimalReads(n);
    assert Digit(Decimal(n)[0]);
  }

  /** White space around a number is not part of it. */
  lemma {:induction false} NumberIsTrimmed(before: string, n: nat, after: string)
    requires (forall c | c in before + after :: White(c)) && n <= 0xFFFF_FFFF
    ensures TrimWhite(before + Decimal(n) + after) == Decimal(n)
    decreases |before| + |after|
  {
    hide Decimal, White;
    var d := Decimal(n);
    DecimalReads(n);
    NoWhiteDigits();
    var s := before + d + after;
    if before != "" {
      assert s[0] == before[0] && before[0] in before + after && s[1..] == before[1..] + d + after;
      assert forall c | c in before[1..] + after :: c in before + after;
      NumberIsTrimmed(before[1..], n, after);
    } else if after != "" {
      assert s[0] == d[0] && s[|s| - 1] == after[|after| - 1] && after[|after| - 1] in before + after && s[..|s| - 1] == before + d + after[..|after| - 1];
      assert forall c | c in before + after[..|after| - 1] :: c in before + after;
      NumberIsTrimmed(before, n, after[..|after| - 1]);
    } else {
      assert s == d;
    }
  }

  lemma NoWhiteDigits()
    ensures forall c | Digit(c) :: !White(c)
  {
  }

  lemma {:induction false} FoundAfter(a: string, rest: string)
    requires '.' !in a && StartsWith(rest, ". ")
    ensures FindText(a + rest, ". ") == |a|
  {
    if a == "" {
      assert a + rest == rest;
    } else {
      assert (a + rest)[1..] == a[1..] + rest;
      StartIndex(a + rest, ". ", 0);
      FoundAfter(a[1..], rest);
    }
  }

  /** What an item's line begins with, white space apart, tells its number, or that it has none. */
  lemma NumberIsRead(line: string, before: string, n: nat, after: string)
    requires StartsWith(line, before + Decimal(n) + after + ". ") && (forall c | c in before + after :: White(c)) && n <= 0xFFFF_FFFF
    ensures var dot := FindText(line, ". "); dot < |line| && ParseU32(TrimWhite(line[..dot]), 10) == Some(n)
  {
    hide TrimWhite, ParseU32, Decimal, White, FindText;
    var d := before + Decimal(n) + after;
    var rest := line[|d|..];
    assert line[..|d| + 2] == d + ". ";
    assert line == d + rest && rest[..2] == line[..|d| + 2][|d|..] == ". ";
    forall c | c in before || c in after ensures White(c) { assert c in before + after; }
    NoDotInWhite();
    FoundAfter(d, rest);
    DecimalParses(n);
    NumberIsTrimmed(before, n, after);
    assert line[..|d|] == d;
  }

  lemma NoDotInWhite()
    ensures !White('.')
  {
  }

  lemma BulletIsNoNumber(line: string)
    requires StartsWith(line, [0x2022 as char, ' '])
    ensures var dot := FindText(line, ". "); dot == |line| || ParseU32(TrimWhite(line[..dot]), 10).None?
  {
    hide TrimWhite, ParseU32, FindText;
    var dot := FindText(line, ". ");
    StartIndex(line, [0x2022 as char, ' '], 0);
    if dot < |line| {
      StartIndex(line[dot..], ". ", 0);
      TrimmedKeepsFirst(line[..dot]);
      NotANumber(TrimWhite(line[..dot]));
    }
  }

  lemma NotANumber(s: string)
    requires s != "" && s[0] == 0x2022 as char
    ensures ParseU32(s, 10).None?
  {
  }

  lemma {:induction false} TrimmedKeepsFirst(s: string)
    requires s != "" && !White(s[0])
    ensures TrimWhite(s) != "" && TrimWhite(s)[0] == s[0]
    decreases |s|
  {
    if White(s[|s| - 1]) { TrimmedKeepsFirst(s[..|s| - 1]); }
  }

  // ---------------------------------------------------------------- where a block begins

  /** The output stands as `last` says. */
  predicate Stands(out: string, last: Last) {
    match last
    case Fresh => out == ""
    case AfterParagraph => |out| > 2 && out[|out| - 2..] == "\n\n" && SolidEnd(out[..|out| - 2])
    case AfterBullet => ItemEnd(out) && StartsWith(AfterLastNewline(out), [0x2022 as char, ' '])
    case AfterNumber(n) => ItemEnd(out) && n <= 0xFFFF_FFFF && StartsWith(AfterLastNewline(out), Decimal(n) + ". ")
  }

  predicate ItemEnd(out: string) { SolidEnd(out) && out[|out| - 1] != '\r' }

  lemma {:induction false} AfterLast(a: string, b: string)
    requires '\n' !in b
    ensures AfterLastNewline(a + b) == AfterLastNewline(a) + b
    decreases |b|
  {
    if b == "" {
      assert a + b == a;
    } else {
      var last := |b| - 1;
      assert (a + b)[..|a + b| - 1] == a + b[..last];
      AfterLast(a, b[..last]);
      assert AfterLastNewline(a) + b[..last] + [b[last]] == AfterLastNewline(a) + b;
    }
  }

  lemma LineStart(out: string, last: Last)
    requires Stands(out, last)
    ensures var line := if InList(last) then out + "\n" else out;
            && AfterLastNewline(line) == ""
            && (if TrimEnd(out) != "" && !EndsWith(TrimEnd(out), "\n") then TrimEnd(out) + "\n" else TrimEnd(out)) == line
            && LastLine(line) == if InList(last) then AfterLastNewline(out) else ""
  {
    hide Decimal, AfterLastNewline, TrimEnd, LastLine, EndsWith;
    match last
    case Fresh => FreshStart();
    case AfterParagraph => ParagraphStart(out);
    case _ => ItemStart(out);
  }

  lemma FreshStart()
    ensures AfterLastNewline("") == "" && TrimEnd("") == "" && LastLine("") == ""
  {
  }

  lemma ParagraphStart(out: string)
    requires Stands(out, AfterParagraph)
    ensures AfterLastNewline(out) == "" && TrimEnd(out) == out && EndsWith(out, "\n") && LastLine(out) == ""
  {
    assert out[|out| - 1] == out[|out| - 2..][1] && out[|out| - 2] == out[|out| - 2..][0];
    assert out[|out| - 1..] == "\n";
    EndIndexAt(out, "\r\n", 0);
    assert out[..|out| - 1][|out| - 2] == '\n';
  }

  lemma ItemStart(out: string)
    requires ItemEnd(out)
    ensures AfterLastNewline(out + "\n") == "" && TrimEnd(out) == out && out != "" && !EndsWith(out, "\n")
    ensures LastLine(out + "\n") == AfterLastNewline(out)
  {
    var line := out + "\n";
    assert line[..|line| - 1] == out && line[|line| - 1..] == "\n" && line[|line| - 2] == out[|out| - 1];
    EndIndexAt(line, "\r\n", 0);
    EndIndexAt(out, "\n", 0);
  }

  lemma EndIndexAt(s: string, suffix: string, i: nat)
    requires i < |suffix|
    ensures EndsWith(s, suffix) ==> |suffix| <= |s| && s[|s| - |suffix| + i] == suffix[i]
  {
    if EndsWith(s, suffix) { assert s[|s| - |suffix|..][i] == s[|s| - |suffix| + i]; }
  }

  /** The marker of the next item, on a line of its own. */
  lemma MarkerStands(out: string, ordered: bool, last: Last)
    requires Stands(out, last)
    ensures ListMarker(out, ordered) == out + (if InList(last) then "\n" else "") + Marker(ordered, last)
  {
    hide Decimal, Stands, LastLine;
    LineStart(out, last);
    var line := if InList(last) then out + "\n" else out;
    NextIsRead(out, line, last);
    assert out + "" == out;
  }

  lemma NextIsRead(out: string, line: string, last: Last)
    requires Stands(out, last) && LastLine(line) == if InList(last) then AfterLastNewline(out) else ""
    ensures NextOrderedNumber(line) == NextNumber(last)
  {
    hide Decimal, LastLine, ParseU32, TrimWhite;
    match last
    case AfterBullet => BulletIsNoNumber(LastLine(line));
    case AfterNumber(n) =>
      assert "" + Decimal(n) + "" + ". " == Decimal(n) + ". ";
      NumberIsRead(LastLine(line), "", n, "");
    case _ =>
  }

  lemma ItemStands(out: string, f: Forest, ordered: bool, last: Last)
    requires Stands(out, last) && LineOk(f)
    ensures Stands(ListMarker(out, ordered) + PrintPango(f), AfterItem(ordered, last))
  {
    hide Decimal, PrintPango, LineOk, StartsWith, ListMarker, AfterLastNewline, SolidEnd, TrimEnd, Marker, Stands;
    LineEnds(ListMarker(out, ordered), f);
    MarkerBegins(out, PrintPango(f), ordered, last);
    NumberFits(out, last);
    StandsAfterItem(ListMarker(out, ordered) + PrintPango(f), ordered, last);
  }

  lemma MarkerBegins(out: string, text: string, ordered: bool, last: Last)
    requires Stands(out, last) && '\n' !in text
    ensures StartsWith(AfterLastNewline(ListMarker(out, ordered) + text), Marker(ordered, last))
  {
    hide Decimal, StartsWith, ListMarker, AfterLastNewline, TrimEnd, LastLine, Marker, Stands;
    MarkerStands(out, ordered, last);
    LineStart(out, last);
    NoNewlineInMarker(ordered, last);
    ItemLine(if InList(last) then out + "\n" else out, Marker(ordered, last), text);
    assert out + "" == out;
  }

  lemma NumberFits(out: string, last: Last)
    requires Stands(out, last)
    ensures last.AfterNumber? ==> last.number <= 0xFFFF_FFFF
  {
    hide Decimal, AfterLastNewline, SolidEnd, StartsWith;
  }

  lemma StandsAfterItem(out: string, ordered: bool, last: Last)
    requires ItemEnd(out) && StartsWith(AfterLastNewline(out), Marker(ordered, last)) && (last.AfterNumber? ==> last.number <= 0xFFFF_FFFF)
    ensures Stands(out, AfterItem(ordered, last))
  {
    hide Decimal, AfterLastNewline, SolidEnd, StartsWith;
  }

  lemma ItemLine(line: string, marker: string, text: string)
    requires AfterLastNewline(line) == "" && '\n' !in marker && '\n' !in text
    ensures StartsWith(AfterLastNewline(line + marker + text), marker)
  {
    AfterLast(line, marker + text);
    Regroup(line, marker, text);
    assert "" + (marker + text) == marker + text && (marker + text)[..|marker|] == marker;
  }

  lemma NoNewlineInMarker(ordered: bool, last: Last)
    ensures '\n' !in Marker(ordered, last)
  {
  }

  // ---------------------------------------------------------------- scanning the blocks

  lemma ItemParts(items: seq<Forest>, rest: string)
    requires items != [] && LinesOk(items)
    ensures LineOk(items[0]) && LinesOk(items[1..])
    ensures var after := EndTag("li") + (PrintItems(items[1..]) + rest);
            && PrintItems(items) + rest == StartTag("li", "") + (PrintHtml(items[0]) + after)
            && after != "" && after[0] == '<'
  {
    hide PrintHtml, PrintPango, WellFormed, Edged;
    assert items[0] in items;
    var more := PrintItems(items[1..]);
    Regroup(StartTag("li", ""), PrintHtml(items[0]) + (EndTag("li") + more), rest);
    Regroup(PrintHtml(items[0]), EndTag("li") + more, rest);
    Regroup(EndTag("li"), more, rest);
    assert EndTag("li")[0] == '<';
  }

  lemma ItemScan(p: Pass, f: Forest, rest: string, ordered: bool, last: Last)
    requires p.lists != [] && p.lists[|p.lists| - 1] == ordered && Stands(p.out, last) && LineOk(f)
    requires var after := EndTag("li") + rest; p.rest == StartTag("li", "") + (PrintHtml(f) + after) && after != "" && after[0] == '<'
    ensures var out := p.out + ((if InList(last) then "\n" else "") + Marker(ordered, last) + PrintPango(f));
            Scan(p) == Scan(p.(out := out, rest := rest)) && Stands(out, AfterItem(ordered, last))
  {
    hide Scan, PrintHtml, PrintPango, WellFormed, Edged, ListMarker, StartTag, EndTag, Stands, Decimal;
    var after := EndTag("li") + rest;
    Opens(p, "li", "", PrintHtml(f) + after);
    var q := p.(out := ListMarker(p.out, ordered), rest := PrintHtml(f) + after);
    LineScan(f, q, after);
    Closes(q.(out := q.out + PrintPango(f), rest := after), "li", rest);
    MarkerStands(p.out, ordered, last);
    ItemStands(p.out, f, ordered, last);
    var lead := if InList(last) then "\n" else "";
    assert p.out + lead + Marker(ordered, last) + PrintPango(f) == p.out + (lead + Marker(ordered, last) + PrintPango(f));
  }

  lemma {:induction false} ItemsScan(items: seq<Forest>, p: Pass, rest: string, ordered: bool, last: Last)
    requires p.lists != [] && p.lists[|p.lists| - 1] == ordered && Stands(p.out, last) && LinesOk(items)
    requires p.rest == PrintItems(items) + rest
    ensures var out := p.out + ShownItems(ordered, items, last);
            Scan(p) == Scan(p.(out := out, rest := rest)) && Stands(out, AfterItems(ordered, items, last))
    decreases |items|
  {
    hide Scan, PrintHtml, PrintPango, WellFormed, Edged, StartTag, EndTag, Stands, Decimal, Marker;
    if items == [] {
      assert "" + rest == rest && p.out + "" == p.out;
    } else {
      ItemParts(items, rest);
      var more := PrintItems(items[1..]) + rest;
      ItemScan(p, items[0], more, ordered, last);
      var item := (if InList(last) then "\n" else "") + Marker(ordered, last) + PrintPango(items[0]);
      var q := p.(out := p.out + item, rest := more);
      ItemsScan(items[1..], q, rest, ordered, AfterItem(ordered, last));
      Regroup(p.out, item, ShownItems(ordered, items[1..], AfterItem(ordered, last)));
    }
  }

  lemma ListScan(p: Pass, ordered: bool, items: seq<Forest>, rest: string, last: Last)
    requires p.rest == PrintBlock(Listing(ordered, items)) + rest && Stands(p.out, last) && LinesOk(items)
    ensures var out := p.out + ShownItems(ordered, items, last);
            Scan(p) == Scan(p.(out := out, rest := rest)) && Stands(out, AfterItems(ordered, items, last))
  {
    hide Scan, PrintItems, ShownItems, AfterItems, StartTag, EndTag, Stands, LinesOk;
    var name := ListName(ordered);
    var close := EndTag(name) + rest;
    Regroup(StartTag(name, ""), PrintItems(items) + EndTag(name), rest);
    Regroup(PrintItems(items), EndTag(name), rest);
    Opens(p, name, "", PrintItems(items) + close);
    var q := p.(lists := p.lists + [ordered], rest := PrintItems(items) + close);
    ItemsScan(items, q, close, ordered, last);
    Closes(q.(out := q.out + ShownItems(ordered, items, last), rest := close), name, rest);
    assert q.lists[..|q.lists| - 1] == p.lists;
  }

  lemma NothingBegun()
    ensures ParagraphBreak("") == "" + ""
  {
  }

  lemma ParagraphGoesOn(out: string)
    requires |out| > 2 && out[|out| - 2..] == "\n\n" && SolidEnd(out[..|out| - 2])
    ensures ParagraphBreak(out) == out + ""
  {
    hide ParagraphBreak, SolidEnd;
    var before := out[..|out| - 2];
    assert out == before + out[|out| - 2..];
    Broken(before);
    assert out + "" == out;
  }

  lemma ParagraphBegins(out: string, last: Last)
    requires Stands(out, last)
    ensures ParagraphBreak(out) == out + if InList(last) then "\n\n" else ""
  {
    hide Decimal, ParagraphBreak, SolidEnd, AfterLastNewline, StartsWith;
    match last
    case Fresh => NothingBegun();
    case AfterParagraph => ParagraphGoesOn(out);
    case _ => Broken(out);
  }

  lemma ParagraphEnds(out: string)
    requires SolidEnd(out)
    ensures ParagraphBreak(out) == out + "\n\n" && Stands(out + "\n\n", AfterParagraph)
  {
    Broken(out);
    assert (out + "\n\n")[..|out + "\n\n"| - 2] == out;
  }

  lemma ParagraphScan(p: Pass, attributes: string, lines: seq<Forest>, more: nat, rest: string, last: Last)
    requires p.rest == PrintBlock(Paragraph(attributes, lines, more)) + rest && Stands(p.out, last) && BlockOk(Paragraph(attributes, lines, more))
    ensures var out := p.out + ShownBlock(Paragraph(attributes, lines, more), last);
            Scan(p) == Scan(p.(out := out, rest := rest)) && Stands(out, AfterParagraph)
  {
    hide Scan, PrintLines, ShownLines, StartTag, Stands, LinesOk, ParagraphBreak, AttributesOk, SolidEnd;
    var close := EndTag("p") + rest;
    Regroup(StartTag("p", attributes), PrintLines(lines, more) + EndTag("p"), rest);
    Regroup(PrintLines(lines, more), EndTag("p"), rest);
    Opens(p, "p", attributes, PrintLines(lines, more) + close);
    ParagraphBegins(p.out, last);
    var q := p.(out := ParagraphBreak(p.out), rest := PrintLines(lines, more) + close);
    assert EndTag("p")[0] == '<';
    LinesScan(lines, more, q, close);
    var r := q.(out := q.out + ShownLines(lines), rest := close);
    Closes(r, "p", rest);
    ParagraphEnds(r.out);
    var lead := if InList(last) then "\n\n" else "";
    assert p.out + lead + ShownLines(lines) + "\n\n" == p.out + (lead + ShownLines(lines) + "\n\n");
  }

  function AfterDocument(doc: seq<Block>, last: Last): Last {
    if doc == [] then last else AfterDocument(doc[1..], AfterBlock(doc[0], last))
  }

  lemma {:induction false} DocumentScan(doc: seq<Block>, p: Pass, last: Last)
    requires DocumentOk(doc) && p.rest == PrintDocument(doc) && Stands(p.out, last)
    ensures var out := p.out + ShownDocument(doc, last);
            Scan(p) == Scan(p.(out := out, rest := "")) && Stands(out, AfterDocument(doc, last))
    decreases |doc|
  {
    hide Scan, PrintBlock, ShownBlock, Stands, BlockOk, ShownItems;
    if doc == [] {
      assert p.out + "" == p.out;
    } else {
      assert doc[0] in doc;
      var rest := PrintDocument(doc[1..]);
      BlockScan(doc[0], p, rest, last);
      var shown := ShownBlock(doc[0], last);
      var q := p.(out := p.out + shown, rest := rest);
      DocumentScan(doc[1..], q, AfterBlock(doc[0], last));
      Regroup(p.out, shown, ShownDocument(doc[1..], AfterBlock(doc[0], last)));
    }
  }

  lemma BlockScan(b: Block, p: Pass, rest: string, last: Last)
    requires BlockOk(b) && p.rest == PrintBlock(b) + rest && Stands(p.out, last)
    ensures var out := p.out + ShownBlock(b, last); Scan(p) == Scan(p.(out := out, rest := rest)) && Stands(out, AfterBlock(b, last))
  {
    hide Scan, Stands, PrintItems, PrintLines, ShownItems, ShownLines;
    match b
    case Paragraph(attributes, lines, more) => ParagraphScan(p, attributes, lines, more, rest, last);
    case Listing(ordered, items) => ListScan(p, ordered, items, rest, last);
  }

  // ---------------------------------------------------------------- the last pass over the output

  lemma {:induction false} FlatCollapse(a: string, b: string, run: nat)
    requires a != "" && '\n' !in a
    ensures CollapseNewlines(a + b, run) == a + CollapseNewlines(b, 0)
  {
    assert (a + b)[1..] == a[1..] + b;
    if |a| == 1 {
      assert a[1..] + b == b && a == [a[0]];
    } else {
      FlatCollapse(a[1..], b, 0);
      Regroup([a[0]], a[1..], CollapseNewlines(b, 0));
      assert [a[0]] + a[1..] == a;
    }
  }

  lemma NewlineCollapse(b: string, run: nat)
    requires run < 2
    ensures CollapseNewlines("\n" + b, run) == "\n" + CollapseNewlines(b, run + 1)
  {
    var s := "\n" + b;
    assert s[0] == '\n' && s[1..] == b;
  }

  lemma BreakCollapse(b: string)
    ensures CollapseNewlines("\n" + b, 0) == "\n" + CollapseNewlines(b, 1)
    ensures CollapseNewlines("\n\n" + b, 0) == "\n\n" + CollapseNewlines(b, 2)
  {
    hide CollapseNewlines;
    assert "\n\n" + b == "\n" + ("\n" + b);
    NewlineCollapse("\n" + b, 0);
    NewlineCollapse(b, 0);
    NewlineCollapse(b, 1);
    assert "\n" + ("\n" + CollapseNewlines(b, 2)) == "\n\n" + CollapseNewlines(b, 2);
  }

  lemma FlatLine(f: Forest)
    requires LineOk(f)
    ensures '\n' !in PrintPango(f) && PrintPango(f) != ""
  {
    PangoHasOnlyBlanks(f);
  }

  lemma ShownLinesParts(lines: seq<Forest>, b: string)
    requires |lines| > 1 && LinesOk(lines)
    ensures LineOk(lines[0]) && LinesOk(lines[1..])
    ensures ShownLines(lines) + b == PrintPango(lines[0]) + ("\n" + (ShownLines(lines[1..]) + b))
  {
    hide PrintPango, WellFormed, Edged;
    assert lines[0] in lines;
    var more := ShownLines(lines[1..]);
    Regroup(PrintPango(lines[0]), "\n" + more, b);
    Regroup("\n", more, b);
  }

  lemma {:induction false} LinesCollapse(lines: seq<Forest>, b: string, run: nat)
    requires lines != [] && LinesOk(lines)
    ensures CollapseNewlines(ShownLines(lines) + b, run) == ShownLines(lines) + CollapseNewlines(b, 0)
    decreases |lines|
  {
    hide PrintPango, WellFormed, Edged, CollapseNewlines, ShownLines, LinesOk;
    if |lines| == 1 {
      LastLineParts(lines, 0);
      FlatLine(lines[0]);
      FlatCollapse(PrintPango(lines[0]), b, run);
    } else {
      ShownLinesParts(lines, b);
      ShownLinesParts(lines, CollapseNewlines(b, 0));
      FlatLine(lines[0]);
      var rest := ShownLines(lines[1..]) + b;
      FlatCollapse(PrintPango(lines[0]), "\n" + rest, run);
      BreakCollapse(rest);
      LinesCollapse(lines[1..], b, 1);
    }
  }

  lemma MarkedItem(ordered: bool, last: Last, f: Forest)
    requires LineOk(f)
    ensures '\n' !in Marker(ordered, last) + PrintPango(f) && Marker(ordered, last) + PrintPango(f) != ""
  {
    hide Decimal;
    FlatLine(f);
    NoNewlineInMarker(ordered, last);
  }

  lemma {:induction false} ItemsCollapse(ordered: bool, items: seq<Forest>, last: Last, b: string, run: nat)
    requires LinesOk(items) && (InList(last) ==> run == 0)
    ensures CollapseNewlines(ShownItems(ordered, items, last) + b, run) ==
            ShownItems(ordered, items, last) + CollapseNewlines(b, if items == [] then run else 0)
    decreases |items|
  {
    hide PrintPango, WellFormed, Edged, CollapseNewlines, Marker, ShownItems;
    if items == [] {
      NoItems(ordered, last);
      assert "" + b == b && "" + CollapseNewlines(b, run) == CollapseNewlines(b, run);
    } else {
      var f := items[0];
      assert f in items;
      var next := AfterItem(ordered, last);
      var item, more := Marker(ordered, last) + PrintPango(f), ShownItems(ordered, items[1..], next);
      MarkedItem(ordered, last, f);
      ItemsCollapse(ordered, items[1..], next, b, 0);
      FlatCollapse(item, more + b, if InList(last) then 1 else run);
      BreakCollapse(item + (more + b));
      ShownItemsParts(ordered, items, last, b);
      ShownItemsParts(ordered, items, last, CollapseNewlines(b, 0));
    }
  }

  lemma NoItems(ordered: bool, last: Last)
    ensures ShownItems(ordered, [], last) == ""
  {
  }

  lemma ShownItemsParts(ordered: bool, items: seq<Forest>, last: Last, b: string)
    requires items != [] && LinesOk(items)
    ensures LineOk(items[0]) && LinesOk(items[1..])
    ensures var item, more := Marker(ordered, last) + PrintPango(items[0]), ShownItems(ordered, items[1..], AfterItem(ordered, last));
            ShownItems(ordered, items, last) + b == if InList(last) then "\n" + (item + (more + b)) else item + (more + b)
  {
    hide PrintPango, WellFormed, Edged, Marker;
    assert items[0] in items;
    var item, more := Marker(ordered, last) + PrintPango(items[0]), ShownItems(ordered, items[1..], AfterItem(ordered, last));
    var lead := if InList(last) then "\n" else "";
    assert lead + Marker(ordered, last) + PrintPango(items[0]) == lead + item;
    Regroup(lead + item, more, b);
    Regroup(lead, item, more + b);
    assert "" + (item + (more + b)) == item + (more + b);
  }

  /** How many newlines end the output where the next block begins. */
  function RunBefore(last: Last): nat { if last.AfterParagraph? then 2 else 0 }

  lemma BlockCollapse(block: Block, last: Last, b: string)
    requires BlockOk(block)
    ensures CollapseNewlines(ShownBlock(block, last) + b, RunBefore(last)) == ShownBlock(block, last) + CollapseNewlines(b, RunBefore(AfterBlock(block, last)))
  {
    hide ShownLines, ShownItems, CollapseNewlines, LinesOk;
    match block
    case Paragraph(_, lines, _) =>
      var lead := if InList(last) then "\n\n" else "";
      var end := "\n\n" + b;
      BreakCollapse(b);
      LinesCollapse(lines, end, RunBefore(last));
      LinesCollapse(lines, end, 2);
      BreakCollapse(ShownLines(lines) + end);
      assert ShownBlock(block, last) + b == lead + (ShownLines(lines) + end);
      var c := CollapseNewlines(b, 2);
      assert ShownBlock(block, last) + c == lead + (ShownLines(lines) + ("\n\n" + c));
      assert "" + (ShownLines(lines) + end) == ShownLines(lines) + end;
      assert "" + (ShownLines(lines) + ("\n\n" + c)) == ShownLines(lines) + ("\n\n" + c);
    case Listing(ordered, items) =>
      ItemsCollapse(ordered, items, last, b, RunBefore(last));
      AfterSomeItems(ordered, items, last);
  }

  lemma {:induction false} AfterSomeItems(ordered: bool, items: seq<Forest>, last: Last)
    ensures items != [] ==> InList(AfterItems(ordered, items, last))
    ensures items == [] ==> AfterItems(ordered, items, last) == last
  {
    if items != [] { AfterSomeItems(ordered, items[1..], AfterItem(ordered, last)); }
  }

  lemma {:induction false} DocumentCollapses(doc: seq<Block>, last: Last)
    requires DocumentOk(doc)
    ensures CollapseNewlines(ShownDocument(doc, last), RunBefore(last)) == ShownDocument(doc, last)
    decreases |doc|
  {
    hide ShownBlock, BlockOk;
    if doc != [] {
      assert doc[0] in doc;
      var next := AfterBlock(doc[0], last);
      DocumentCollapses(doc[1..], next);
      BlockCollapse(doc[0], last, ShownDocument(doc[1..], next));
    }
  }

  lemma {:induction false} NothingToTrim(doc: seq<Block>, last: Last)
    requires DocumentOk(doc)
    ensures TrimStart(ShownDocument(doc, last)) == ShownDocument(doc, last)
    decreases |doc|
  {
    hide ShownBlock, BlockOk, TrimStart;
    if doc != [] {
      assert doc[0] in doc;
      var next := AfterBlock(doc[0], last);
      BlockHead(doc[0], last);
      NothingToTrim(doc[1..], next);
      HeadStays(ShownBlock(doc[0], last), ShownDocument(doc[1..], next));
    } else {
      HeadStays("", "");
    }
  }

  lemma HeadStays(shown: string, rest: string)
    requires shown != "" ==> !Space(shown[0])
    requires shown == "" ==> TrimStart(rest) == rest
    ensures TrimStart(shown + rest) == shown + rest
  {
    if shown == "" { assert shown + rest == rest; } else { assert (shown + rest)[0] == shown[0]; }
  }

  lemma BlockHead(b: Block, last: Last)
    requires BlockOk(b)
    ensures ShownBlock(b, last) != "" ==> !Space(ShownBlock(b, last)[0])
  {
    hide ShownItems, ShownLines, LinesOk, AttributesOk;
    match b
    case Paragraph(_, lines, _) => ParagraphHead(lines, last);
    case Listing(ordered, items) => if items != [] { ItemHead(ordered, items, last); } else { NoItems(ordered, last); }
  }

  lemma ParagraphHead(lines: seq<Forest>, last: Last)
    requires lines != [] && LinesOk(lines)
    ensures var shown := (if InList(last) then "\n\n" else "") + ShownLines(lines) + "\n\n"; shown != "" && !Space(shown[0])
  {
    hide WellFormed, PrintPango;
    assert lines[0] in lines;
    NoTabFirst(lines[0]);
  }

  lemma NoTabFirst(f: Forest)
    requires LineOk(f)
    ensures !Space(PrintPango(f)[0])
  {
    PangoHasOnlyBlanks(f);
    assert PrintPango(f)[0] in PrintPango(f);
  }

  lemma ItemHead(ordered: bool, items: seq<Forest>, last: Last)
    requires items != [] && LinesOk(items)
    ensures ShownItems(ordered, items, last) != "" && !Space(ShownItems(ordered, items, last)[0])
  {
    hide WellFormed, PrintPango, Edged;
    MarkerHead(ordered, last);
  }

  lemma MarkerHead(ordered: bool, last: Last)
    ensures Marker(ordered, last) != "" && !Space(Marker(ordered, last)[0])
  {
    if ordered { assert Decimal(NextNumber(last)) != ""; }
  }

  lemma FinishedOutput(out: string, last: Last)
    requires Stands(out, last) && CollapseNewlines(out, 0) == out && TrimStart(out) == out
    ensures Finish(out) == if EndsWith(out, "\n\n") then out[..|out| - 2] else out
  {
    hide Decimal, CollapseNewlines, AfterLastNewline;
    if last.AfterParagraph? { assert out[|out| - 1] == out[|out| - 2..][1]; }
  }

  /** For every description made of paragraphs and lists of styled lines: the conversion shows its
      blocks in order, paragraphs one blank line apart, every item on its own line behind its bullet
      or its number. A numbered list starts at 1 exactly when no numbered item stands right before it;
      otherwise it goes on counting, in 32 bits. */
  lemma DocumentsAreShown(doc: seq<Block>)
    requires DocumentOk(doc)
    ensures var shown := ShownDocument(doc, Fresh);
            HtmlToPango(PrintDocument(doc)) == if EndsWith(shown, "\n\n") then shown[..|shown| - 2] else shown
  {
    hide Scan, Finish, ShownDocument, PrintDocument, DocumentOk;
    var p := Pass("", [], [], PrintDocument(doc));
    var shown := ShownDocument(doc, Fresh);
    DocumentScan(doc, p, Fresh);
    assert "" + shown == shown && shown + "" == shown;
    NothingLeft(p.(out := shown, rest := ""));
    DocumentCollapses(doc, Fresh);
    NothingToTrim(doc, Fresh);
    FinishedOutput(shown, AfterDocument(doc, Fresh));
  }
}
