/** Well-formed styled HTML, as a tree: converting its print gives the print of the same tree in
    Pango markup, element by element and text by text. First what one turn of the pass does at a
    start tag, an end tag and a text; then forests of them, wherever in the output they begin, with
    the open tags and lists left as they were; then whole trees, up to blanks at the edges. */
module RichTextTrees {
  import opened Prelude
  import opened RichText
  import opened RichTextMeaning

  /** Siblings: text, or an element with the name it was written with, and what follows. */
  datatype Forest =
    | Nothing
    | Text(text: string, afterText: Forest)
    | Styling(tag: Tag, name: string, attributes: string, inside: Forest, afterElement: Forest)

  function PrintHtml(f: Forest): string {
    match f
    case Nothing => ""
    case Text(text, rest) => Escape(text) + PrintHtml(rest)
    case Styling(_, name, attributes, inside, rest) =>
      StartTag(name, attributes) + (PrintHtml(inside) + (EndTag(name) + PrintHtml(rest)))
  }

  function StartTag(name: string, attributes: string): string { "<" + (name + attributes) + ">" }

  function EndTag(name: string): string { "</" + name + ">" }

  /** The names HTML has for an element, in lower case. */
  function Names(tag: Tag): set<string> {
    match tag
    case Bold => {"b", "strong"}
    case Italic => {"i", "em"}
    case Strike => {"del"}
  }

  /** The name Pango has for it. */
  function PangoName(tag: Tag): string {
    match tag
    case Bold => "b"
    case Italic => "i"
    case Strike => "s"
  }

  function PrintPango(f: Forest): string {
    match f
    case Nothing => ""
    case Text(text, rest) => Escape(text) + PrintPango(rest)
    case Styling(tag, _, _, inside, rest) =>
      StartTag(PangoName(tag), "") + PrintPango(inside) + EndTag(PangoName(tag)) + PrintPango(rest)
  }

  predicate AttributesOk(attributes: string) {
    && (attributes != "" ==> !Alphanumeric(attributes[0]))
    && '>' !in attributes && '"' !in attributes && '\'' !in attributes
  }

  /** Texts are non-empty, single-spaced and not adjacent; elements are styling ones, under any of their
      names in any case and with any unquoted attributes. */
  predicate WellFormed(f: Forest) {
    match f
    case Nothing => true
    case Text(text, rest) => text != "" && SingleSpaced(text) && !rest.Text? && WellFormed(rest)
    case Styling(tag, name, attributes, inside, rest) =>
      LowerAll(name) in Names(tag) && AttributesOk(attributes) && WellFormed(inside) && WellFormed(rest)
  }

  // ---------------------------------------------------------------- one tag, one text

  /** The names of an element stand for it, and nothing but letters is in them. */
  lemma NamesStyle(tag: Tag, name: string)
    requires LowerAll(name) in Names(tag)
    ensures Styled(LowerAll(name)) == Some(tag) && NameOk(name) && LowerAll(name) !in {"p", "br", "ul", "ol", "li", "script", "style"}
  {
    var lower := LowerAll(name);
    assert forall c :: c in lower ==> 'a' <= c <= 'z' by {
      assert lower in ["b", "strong", "i", "em", "del"];
    }
    forall i | 0 <= i < |name| ensures AsciiLetter(name[i]) { assert lower[i] in lower; }
  }

  lemma PangoTags(tag: Tag)
    ensures Opening(tag) == StartTag(PangoName(tag), "") && Closing(tag) == EndTag(PangoName(tag))
  {
  }

  lemma {:induction false} NameRead(name: string, rest: string)
    requires (forall c :: c in name ==> AsciiLetter(c)) && (rest != "" ==> !Alphanumeric(rest[0]))
    ensures TagName(name + rest) == LowerAll(name)
  {
    if name == "" {
      assert name + rest == rest;
    } else {
      assert (name + rest)[1..] == name[1..] + rest && name[0] in name;
      NameRead(name[1..], rest);
      assert LowerAll(name) == [Lower(name[0])] + LowerAll(name[1..]);
    }
  }

  lemma {:induction false} TagEndsAt(s: string, i: nat, k: nat)
    requires i <= k < |s| && s[k] == '>' && forall j :: i <= j < k ==> s[j] != '>' && s[j] != '"' && s[j] != '\''
    ensures TagEndFrom(s, i, None) == k
    decreases k - i
  {
    if i < k { TagEndsAt(s, i + 1, k); }
  }

  /** A turn that starts at `<raw>`. */
  lemma TagTurn(p: Pass, raw: string, rest: string)
    requires p.rest == "<" + raw + ">" + rest && '>' !in raw && '"' !in raw && '\'' !in raw && (raw == "" || raw[0] != '!')
    ensures Turn(p) == Element(p.(rest := rest), raw)
  {
    var s, k := p.rest, |raw| + 1;
    assert s[0] == '<' && s[k] == '>' && s[1..k] == raw && s[k + 1..] == rest;
    assert forall j :: 1 <= j < k ==> s[j] == raw[j - 1];
    TagEndsAt(s, 1, k);
    StartIndex(s, "<!--", 1);
  }

  /** Letters only, as the names of the elements the conversion knows are. */
  predicate NameOk(name: string) { name != "" && forall c :: c in name ==> AsciiLetter(c) }

  lemma StartTagOpens(p: Pass, name: string, attributes: string, rest: string)
    requires p.rest == StartTag(name, attributes) + rest && NameOk(name) && AttributesOk(attributes)
    ensures Turn(p) == OpenElement(p.(rest := rest), LowerAll(name))
  {
    hide Turn, OpenElement;
    var raw := name + attributes;
    assert raw[0] == name[0] && name[0] in name;
    TagTurn(p, raw, rest);
    StartIndex(raw, "/", 0);
    NameRead(name, attributes);
  }

  lemma EndTagCloses(p: Pass, name: string, rest: string)
    requires p.rest == EndTag(name) + rest && NameOk(name)
    ensures Turn(p) == CloseElement(p.(rest := rest), LowerAll(name))
  {
    hide Turn, CloseElement;
    var raw := "/" + name;
    assert EndTag(name) + rest == "<" + raw + ">" + rest;
    TagTurn(p, raw, rest);
    assert raw[..1] == "/" && raw[1..] == name && name[0] in name;
    NameRead(name, "");
    assert name + "" == name;
  }

  lemma StartTagTurn(p: Pass, tag: Tag, name: string, attributes: string, rest: string)
    requires p.rest == StartTag(name, attributes) + rest && LowerAll(name) in Names(tag) && AttributesOk(attributes)
    ensures Turn(p) == OpenTag(p.(rest := rest), tag)
  {
    hide Turn, OpenTag, Styled, Names;
    NamesStyle(tag, name);
    StartTagOpens(p, name, attributes, rest);
  }

  lemma EndTagTurn(p: Pass, tag: Tag, name: string, rest: string)
    requires p.rest == EndTag(name) + rest && LowerAll(name) in Names(tag)
    ensures Turn(p) == CloseTag(p.(rest := rest), tag)
  {
    hide Turn, CloseTag, Styled, Names;
    NamesStyle(tag, name);
    EndTagCloses(p, name, rest);
  }

  lemma {:induction false} FindAfter(a: string, b: string, c: char)
    requires c !in a
    ensures Find(a + b, c) == |a| + Find(b, c)
  {
    if a == "" {
      assert a + b == b;
    } else {
      assert (a + b)[1..] == a[1..] + b;
      FindAfter(a[1..], b, c);
    }
  }

  /** The text is not cut short by white space that is already there. */
  predicate StandsAt(text: string, out: string) { text == "" || text[0] != ' ' || !Separated(out) }

  lemma EscapeFirst(text: string)
    requires text != "" && text[0] != ' '
    ensures Escape(text) != "" && Escape(text)[0] != ' '
  {
  }

  /** A turn that starts at a text, which reaches up to the next tag. */
  lemma TextTurn(p: Pass, text: string, rest: string)
    requires p.rest == Escape(text) + rest && text != "" && SingleSpaced(text) && StandsAt(text, p.out) && (rest == "" || rest[0] == '<')
    ensures Turn(p) == p.(out := p.out + Escape(text), rest := rest)
  {
    hide Escape, Collapse, Decoded, SingleSpaced, Separated;
    EscapedIsSome(text);
    EscapeHasNoTag(text);
    FindAfter(Escape(text), rest, '<');
    StartIndex(p.rest, "<!--", 0);
    assert p.rest[0] == Escape(text)[0] && Escape(text)[0] in Escape(text);
    assert p.rest[..|Escape(text)|] == Escape(text) && p.rest[|Escape(text)|..] == rest;
    CollapseEscaped(text, false);
    SingleSpacedCollapses(text);
    DecodeUndoesEscape(text);
    if rest == "" { assert p.rest == Escape(text); }
    if text[0] != ' ' {
      EscapeFirst(text);
      StartIndex(Escape(text), " ", 0);
    }
  }

  lemma EscapedIsSome(text: string)
    requires text != ""
    ensures Escape(text) != ""
  {
  }

  lemma SingleSpacedCollapses(text: string)
    requires SingleSpaced(text)
    ensures Collapse(text, false) == text
  {
    CollapseIsIdentityIff(text, false);
  }

  lemma ClosesInnermost(p: Pass, tag: Tag, at: nat)
    requires p.open != [] && p.open[|p.open| - 1] == Open(tag, at)
    ensures CloseTag(p, tag) == p.(out := p.out + Closing(tag), open := p.open[..|p.open| - 1])
  {
    assert Closings(p.open, 1) == Closing(tag) + "" == Closing(tag);
  }

  // ---------------------------------------------------------------- whole trees

  /** Reading the print of a forest writes the print of the same forest, and leaves the open tags and
      lists as they were. */
  lemma {:induction false} ForestScan(f: Forest, p: Pass, rest: string)
    requires WellFormed(f) && p.rest == PrintHtml(f) + rest && (rest == "" || rest[0] == '<') && (f.Text? ==> StandsAt(f.text, p.out))
    ensures Scan(p) == Scan(p.(out := p.out + PrintPango(f), rest := rest))
    decreases f
  {
    hide Turn, Separated, Scan, SingleSpaced;
    match f
    case Nothing =>
      assert p.out + "" == p.out && "" + rest == rest;
    case Text(text, next) =>
      var after := PrintHtml(next) + rest;
      Regroup(Escape(text), PrintHtml(next), rest);
      AfterText(next, rest);
      EscapedIsSome(text);
      TextTurn(p, text, after);
      ScanStep(p);
      ForestScan(next, Turn(p), rest);
      Regroup(p.out, Escape(text), PrintPango(next));
    case Styling(_, _, _, inside, next) => ElementScan(f, p, rest);
  }

  lemma ScanStep(p: Pass)
    requires p.rest != ""
    ensures Scan(p) == Scan(Turn(p))
  {
  }

  lemma AfterText(next: Forest, rest: string)
    requires !next.Text? && (rest == "" || rest[0] == '<')
    ensures PrintHtml(next) + rest == "" || (PrintHtml(next) + rest)[0] == '<'
  {
    match next
    case Nothing => assert "" + rest == rest;
    case Styling(_, name, attributes, inside, after) => assert PrintHtml(next)[0] == '<';
  }

  lemma AfterTag(out: string, tag: Tag)
    ensures !Separated(out + Opening(tag)) && !Separated(out + Closing(tag))
  {
  }

  lemma {:induction false} ElementScan(f: Forest, p: Pass, rest: string)
    requires WellFormed(f) && f.Styling? && p.rest == PrintHtml(f) + rest && (rest == "" || rest[0] == '<')
    ensures Scan(p) == Scan(p.(out := p.out + PrintPango(f), rest := rest))
    decreases f, 0
  {
    hide Turn, Separated, PrintPango, PrintHtml, Scan;
    var tag := f.tag;
    var afterwards := PrintHtml(f.afterElement) + rest;
    var close := EndTag(f.name) + afterwards;
    ElementParts(f, rest);
    StartTagTurn(p, tag, f.name, f.attributes, PrintHtml(f.inside) + close);
    var q := Turn(p);
    ScanStep(p);
    AfterTag(p.out, tag);
    ForestScan(f.inside, q, close);
    var r := q.(out := q.out + PrintPango(f.inside), rest := close);
    EndTagTurn(r, tag, f.name, afterwards);
    ClosesInnermost(r.(rest := afterwards), tag, |p.out|);
    assert (p.open + [Open(tag, |p.out|)])[..|p.open|] == p.open;
    var t := Turn(r);
    ScanStep(r);
    AfterTag(r.out, tag);
    ForestScan(f.afterElement, t, rest);
    assert ((p.out + Opening(tag) + PrintPango(f.inside)) + Closing(tag)) + PrintPango(f.afterElement) == p.out + PrintPango(f);
  }

  lemma ElementParts(f: Forest, rest: string)
    requires WellFormed(f) && f.Styling?
    ensures PrintHtml(f) + rest == StartTag(f.name, f.attributes) + (PrintHtml(f.inside) + (EndTag(f.name) + (PrintHtml(f.afterElement) + rest)))
    ensures StartTag(f.name, f.attributes) != "" && EndTag(f.name) != ""
    ensures EndTag(f.name)[0] == '<'
    ensures PrintPango(f) == Opening(f.tag) + PrintPango(f.inside) + Closing(f.tag) + PrintPango(f.afterElement)
  {
    PangoTags(f.tag);
    var inside, end, after := PrintHtml(f.inside), EndTag(f.name), PrintHtml(f.afterElement);
    Regroup(StartTag(f.name, f.attributes), inside + (end + after), rest);
    Regroup(inside, end + after, rest);
    Regroup(end, after, rest);
  }

  lemma {:induction false} PangoIsOneLine(f: Forest)
    requires WellFormed(f)
    ensures '\n' !in PrintPango(f)
    decreases f
  {
    match f
    case Nothing =>
    case Text(text, rest) =>
      PangoIsOneLine(rest);
      BlanksAreNotNewlines(text);
      EscapeKeepsOthers(text, '\n');
    case Styling(_, _, _, inside, rest) =>
      PangoIsOneLine(inside);
      PangoIsOneLine(rest);
  }

  /** For every well-formed tree: converting its HTML gives its Pango markup, up to blanks at the
      edges. Structure and text are kept; names' case and attributes are not. */
  lemma TreesAreKept(f: Forest)
    requires WellFormed(f)
    ensures HtmlToPango(PrintHtml(f)) == Trim(PrintPango(f))
  {
    hide Scan, Finish, PrintPango, PrintHtml, Trim;
    var p := Pass("", [], [], PrintHtml(f));
    assert PrintHtml(f) + "" == PrintHtml(f) && "" + PrintPango(f) == PrintPango(f) && PrintPango(f) + "" == PrintPango(f);
    ForestScan(f, p, "");
    NothingLeft(p.(out := PrintPango(f), rest := ""));
    PangoIsOneLine(f);
    FinishOneLine(PrintPango(f));
  }

  lemma NothingLeft(p: Pass)
    requires p.rest == ""
    ensures Scan(p) == p
  {
  }
}
