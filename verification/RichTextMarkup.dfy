/** The markup that is promised, and the proof that every input gives it: properly nested elements
    (section 2.1 of XML 1.0) and character data in which every markup character is escaped
    (section 2.4). */
module RichTextMarkup {
  import opened Prelude
  import opened RichText

  /** The first piece of a markup text: the start or the end of an element, one character of text or
      the escape of one, or nothing that is allowed. */
  datatype Mark = Start(tag: Tag) | End(tag: Tag) | Character | Bad

  function TagOf(c: char): Option<Tag> {
    if c == 'b' then Some(Bold) else if c == 'i' then Some(Italic) else if c == 's' then Some(Strike) else None
  }

  /** The first piece, and its length. */
  function First(s: string): (r: (Mark, nat))
    requires s != ""
    ensures 0 < r.1 && (r.0 != Bad ==> r.1 <= |s|)
  {
    if s[0] == '<' then
      if |s| >= 3 && TagOf(s[1]).Some? && s[2] == '>' then (Start(TagOf(s[1]).value), 3)
      else if |s| >= 4 && s[1] == '/' && TagOf(s[2]).Some? && s[3] == '>' then (End(TagOf(s[2]).value), 4)
      else (Bad, 1)
    else if s[0] == '>' then (Bad, 1)
    else if s[0] == '&' then
      if StartsWith(s, "&amp;") then (Character, 5)
      else if StartsWith(s, "&lt;") || StartsWith(s, "&gt;") then (Character, 4)
      else (Bad, 1)
    else (Character, 1)
  }

  /** The open elements after reading a piece, or nothing when it does not fit. */
  function After(stack: seq<Tag>, mark: Mark): Option<seq<Tag>> {
    match mark
    case Start(tag) => Some(stack + [tag])
    case End(tag) => if stack != [] && stack[|stack| - 1] == tag then Some(stack[..|stack| - 1]) else None
    case Character => Some(stack)
    case Bad => None
  }

  /** Reads markup with `stack` open: the elements open after it, or nothing when it is not markup. */
  function Read(s: string, stack: seq<Tag>): Option<seq<Tag>>
    decreases |s|
  {
    if s == "" then Some(stack)
    else if First(s).0 == Bad || After(stack, First(s).0).None? then None
    else Read(s[First(s).1..], After(stack, First(s).0).value)
  }

  /** `<b>`, `<i>` and `<s>` nest properly, there is no other `<` or `>`, and every `&` starts
      `&amp;`, `&lt;` or `&gt;`. */
  predicate ValidMarkup(s: string) { Read(s, []) == Some([]) }

  /** Characters of which no piece but themselves is made. */
  predicate Filler(c: char) { c == ' ' || c == '\t' || c == '\n' }

  predicate NotMarkup(s: string) { '<' !in s && '>' !in s && '&' !in s }

  // ---------------------------------------------------------------- reading

  lemma FirstOn(a: string, b: string)
    requires a != "" && First(a).0 != Bad
    ensures First(a + b) == First(a) && (a + b)[First(a).1..] == a[First(a).1..] + b
  {
    var k := First(a).1;
    assert (a + b)[..k] == a[..k];
    assert forall i :: 0 <= i < |a| ==> (a + b)[i] == a[i];
    if a[0] == '&' { StartsOn(a, b, "&amp;"); StartsOn(a, b, "&lt;"); StartsOn(a, b, "&gt;"); }
  }

  lemma StartsOn(a: string, b: string, prefix: string)
    ensures StartsWith(a, prefix) ==> StartsWith(a + b, prefix)
    ensures |prefix| <= |a| ==> (StartsWith(a + b, prefix) <==> StartsWith(a, prefix))
  {
    if |prefix| <= |a| { assert (a + b)[..|prefix|] == a[..|prefix|]; }
  }

  /** Reading on after a part that was read. */
  lemma {:induction false} ReadOn(a: string, b: string, stack: seq<Tag>)
    requires Read(a, stack).Some?
    ensures Read(a + b, stack) == Read(b, Read(a, stack).value)
    decreases |a|
  {
    hide First, After;
    if a == "" {
      assert a + b == b;
    } else {
      FirstOn(a, b);
      ReadOn(a[First(a).1..], b, After(stack, First(a).0).value);
    }
  }

  lemma AfterInside(below: seq<Tag>, stack: seq<Tag>, mark: Mark)
    requires After(stack, mark).Some?
    ensures After(below + stack, mark) == Some(below + After(stack, mark).value)
  {
    match mark
    case Start(tag) => assert (below + stack) + [tag] == below + (stack + [tag]);
    case End(tag) => assert (below + stack)[..|below + stack| - 1] == below + stack[..|stack| - 1];
    case _ =>
  }

  /** What can be read can be read inside more open elements. */
  lemma {:induction false} ReadInside(s: string, below: seq<Tag>, stack: seq<Tag>)
    requires Read(s, stack).Some?
    ensures Read(s, below + stack) == Some(below + Read(s, stack).value)
    decreases |s|
  {
    hide First;
    if s != "" {
      var next := After(stack, First(s).0).value;
      AfterInside(below, stack, First(s).0);
      ReadInside(s[First(s).1..], below, next);
    }
  }

  /** A filler character is a piece of its own: it can be taken out. */
  lemma {:induction false} ReadWithout(a: string, c: char, b: string, stack: seq<Tag>)
    requires Filler(c) && Read(a + [c] + b, stack).Some?
    ensures Read(a + b, stack) == Read(a + [c] + b, stack)
    decreases |a|
  {
    hide First, After;
    if a == "" {
      assert a + [c] + b == [c] + b && a + b == b;
      FillerFirst(c, b);
    } else {
      FirstWithout(a, c, b);
      var k := First(a).1;
      assert (a + [c] + b)[k..] == a[k..] + [c] + b && (a + b)[k..] == a[k..] + b;
      ReadWithout(a[k..], c, b, After(stack, First(a).0).value);
    }
  }

  lemma FillerFirst(c: char, b: string)
    requires Filler(c)
    ensures First([c] + b) == (Character, 1) && ([c] + b)[1..] == b && forall stack :: After(stack, Character) == Some(stack)
  {
  }

  lemma NoFillerInside(s: string)
    requires s != "" && First(s).0 != Bad
    ensures forall j :: 0 < j < First(s).1 ==> !Filler(s[j])
  {
    forall j | 0 < j < First(s).1 ensures !Filler(s[j]) { assert s[j] == s[..First(s).1][j]; }
  }

  lemma FirstWithout(a: string, c: char, b: string)
    requires a != "" && Filler(c) && First(a + [c] + b).0 != Bad
    ensures First(a) == First(a + [c] + b) == First(a + b) && First(a).0 != Bad
  {
    var whole := a + [c] + b;
    NoFillerInside(whole);
    assert whole[|a|] == c;
    assert First(whole).1 <= |a|;
    assert whole == a + ([c] + b);
    assert forall i :: 0 <= i < |a| ==> whole[i] == a[i];
    if a[0] == '&' { StartsOn(a, [c] + b, "&amp;"); StartsOn(a, [c] + b, "&lt;"); StartsOn(a, [c] + b, "&gt;"); }
    FirstOn(a, b);
  }

  lemma {:induction false} NotMarkupReads(s: string, stack: seq<Tag>)
    requires NotMarkup(s)
    ensures Read(s, stack) == Some(stack)
  {
    if s != "" { NotMarkupReads(s[1..], stack); }
  }

  lemma {:induction false} EscapeReads(text: string, stack: seq<Tag>)
    ensures Read(Escape(text), stack) == Some(stack)
  {
    if text != "" {
      var e := EscapeChar(text[0]);
      EscapedChar(text[0], stack);
      ReadOn(e, Escape(text[1..]), stack);
      EscapeReads(text[1..], stack);
    }
  }

  lemma EscapedChar(c: char, stack: seq<Tag>)
    ensures Read(EscapeChar(c), stack) == Some(stack)
  {
    var e := EscapeChar(c);
    assert First(e) == (Character, |e|) && e[|e|..] == "";
  }

  // ---------------------------------------------------------------- the output and its open tags

  /** Every open tag still points at its own opening markup, and between and after them everything is
      valid markup of its own. */
  predicate Nested(out: string, open: seq<Open>)
    decreases |open|
  {
    if open == [] then ValidMarkup(out)
    else
      var o := open[|open| - 1];
      && o.at + 3 <= |out| && out[o.at..o.at + 3] == Opening(o.tag)
      && ValidMarkup(out[o.at + 3..])
      && Nested(out[..o.at], open[..|open| - 1])
  }

  lemma ValidAll(a: string, b: string)
    requires ValidMarkup(a) && ValidMarkup(b)
    ensures ValidMarkup(a + b)
  {
    ReadOn(a, b, []);
  }

  /** Valid markup may be added at the end. */
  lemma NestedAppend(out: string, open: seq<Open>, more: string)
    requires Nested(out, open) && ValidMarkup(more)
    ensures Nested(out + more, open)
  {
    hide ValidMarkup;
    if open == [] {
      ValidAll(out, more);
    } else {
      var o := open[|open| - 1];
      assert (out + more)[..o.at] == out[..o.at] && (out + more)[o.at..o.at + 3] == out[o.at..o.at + 3];
      assert (out + more)[o.at + 3..] == out[o.at + 3..] + more;
      ValidAll(out[o.at + 3..], more);
    }
  }

  lemma NestedOpen(out: string, open: seq<Open>, tag: Tag)
    requires Nested(out, open)
    ensures Nested(out + Opening(tag), open + [Open(tag, |out|)])
  {
    var now, all := out + Opening(tag), open + [Open(tag, |out|)];
    assert now[..|out|] == out && now[|out|..|out| + 3] == Opening(tag) && now[|out| + 3..] == "" && all[..|open|] == open;
  }

  /** Reading one piece. */
  lemma ReadFirst(s: string, stack: seq<Tag>)
    requires s != "" && First(s).0 != Bad && After(stack, First(s).0).Some?
    ensures Read(s, stack) == Read(s[First(s).1..], After(stack, First(s).0).value)
  {
  }

  lemma ReadNothing(stack: seq<Tag>)
    ensures Read("", stack) == Some(stack)
  {
  }

  lemma TagFirst(tag: Tag, rest: string)
    ensures First(Opening(tag) + rest) == (Start(tag), 3) && (Opening(tag) + rest)[3..] == rest
    ensures First(Closing(tag) + rest) == (End(tag), 4) && (Closing(tag) + rest)[4..] == rest
  {
  }

  lemma ElementIsValid(tag: Tag, body: string)
    requires ValidMarkup(body)
    ensures ValidMarkup(Opening(tag) + body + Closing(tag))
  {
    hide Read, First, Opening, Closing;
    var rest, end := body + Closing(tag), Closing(tag) + "";
    assert Opening(tag) + body + Closing(tag) == Opening(tag) + rest && end == Closing(tag);
    TagFirst(tag, rest);
    ReadFirst(Opening(tag) + rest, []);
    assert [] + [tag] == [tag];
    ReadInside(body, [tag], []);
    assert [tag] + [] == [tag];
    ReadOn(body, Closing(tag), [tag]);
    TagFirst(tag, "");
    ReadFirst(end, [tag]);
    assert [tag][..0] == [];
    ReadNothing([]);
  }

  lemma NestedClose(out: string, open: seq<Open>)
    requires Nested(out, open) && open != []
    ensures Nested(out + Closing(open[|open| - 1].tag), open[..|open| - 1])
  {
    hide ValidMarkup;
    var o := open[|open| - 1];
    var element := Opening(o.tag) + out[o.at + 3..] + Closing(o.tag);
    ElementIsValid(o.tag, out[o.at + 3..]);
    NestedAppend(out[..o.at], open[..|open| - 1], element);
    assert out == out[..o.at] + (out[o.at..o.at + 3] + out[o.at + 3..]);
    assert out[..o.at] + element == out + Closing(o.tag);
  }

  lemma {:induction false} NestedCloseAll(out: string, open: seq<Open>, count: nat)
    requires Nested(out, open) && count <= |open|
    ensures Nested(out + Closings(open, count), open[..|open| - count])
    decreases count
  {
    hide Nested;
    if count == 0 {
      assert out + "" == out && open[..|open|] == open;
    } else {
      var fewer, closing := open[..|open| - 1], Closing(open[|open| - 1].tag);
      NestedClose(out, open);
      NestedCloseAll(out + closing, fewer, count - 1);
      assert (out + closing) + Closings(fewer, count - 1) == out + Closings(open, count);
      assert fewer[..|fewer| - (count - 1)] == open[..|open| - count];
    }
  }

  /** Rolling every open tag back leaves valid markup. */
  lemma {:induction false} RolledBackIsValid(out: string, open: seq<Open>)
    requires Nested(out, open)
    ensures ValidMarkup(RolledBack(out, open))
    decreases |open|
  {
    hide ValidMarkup;
    if open != [] {
      var o := open[|open| - 1];
      RolledBackIsValid(out[..o.at], open[..|open| - 1]);
      ValidAll(RolledBack(out[..o.at], open[..|open| - 1]), out[o.at + 3..]);
    }
  }

  /** A filler character at the end may be taken off: it is in no opening markup. */
  lemma NestedTrim(out: string, open: seq<Open>)
    requires Nested(out, open) && out != "" && Filler(out[|out| - 1])
    ensures Nested(out[..|out| - 1], open)
  {
    var less, c := out[..|out| - 1], out[|out| - 1];
    if open == [] {
      TrimmedIsValid(out);
    } else {
      var o := open[|open| - 1];
      assert out[o.at..o.at + 3][2] == '>' && out[o.at + 2] == '>';
      assert o.at + 3 < |out|;
      assert less[..o.at] == out[..o.at] && less[o.at..o.at + 3] == out[o.at..o.at + 3];
      assert less[o.at + 3..] == out[o.at + 3..][..|out| - o.at - 4];
      TrimmedIsValid(out[o.at + 3..]);
    }
  }

  lemma TrimmedIsValid(s: string)
    requires ValidMarkup(s) && s != "" && Filler(s[|s| - 1])
    ensures ValidMarkup(s[..|s| - 1])
  {
    var a := s[..|s| - 1];
    assert s == a + [s[|s| - 1]] + "" && a + "" == a;
    ReadWithout(a, s[|s| - 1], "", []);
  }

  lemma {:induction false} NestedTrimEnd(out: string, open: seq<Open>)
    requires Nested(out, open)
    ensures Nested(TrimEnd(out), open)
    decreases |out|
  {
    hide Nested;
    if out != "" && Space(out[|out| - 1]) {
      NestedTrim(out, open);
      NestedTrimEnd(out[..|out| - 1], open);
    }
  }

  lemma NestedText(out: string, open: seq<Open>, text: string)
    requires Nested(out, open)
    ensures Nested(PushText(out, text), open)
  {
    hide Nested, Decoded, Collapse;
    var collapsed := Collapse(text, false);
    var shown := Decoded(if Separated(out) && StartsWith(collapsed, " ") then collapsed[1..] else collapsed);
    EscapeReads(shown, []);
    NestedAppend(out, open, Escape(shown));
  }

  lemma NestedPlain(out: string, open: seq<Open>, text: string)
    requires Nested(out, open) && NotMarkup(text)
    ensures Nested(out + text, open)
  {
    hide Nested;
    NotMarkupReads(text, []);
    NestedAppend(out, open, text);
  }

  // ---------------------------------------------------------------- every turn

  lemma NestedBreaks(out: string, open: seq<Open>)
    requires Nested(out, open)
    ensures Nested(ParagraphBreak(out), open) && Nested(LineBreak(out), open) && Nested(PushSeparator(out), open)
  {
    hide Nested;
    var t := TrimEnd(out);
    NestedTrimEnd(out, open);
    NestedPlain(t, open, "\n\n");
    NestedPlain(t, open, "\n");
    NestedPlain(out, open, " ");
    if EndsWith(t, "\n\n") {
      assert t[|t| - 1] == t[|t| - 2..][1];
      NestedTrim(t, open);
    }
  }

  lemma NestedMarker(out: string, open: seq<Open>, ordered: bool)
    requires Nested(out, open)
    ensures Nested(ListMarker(out, ordered), open)
  {
    hide Nested, NextOrderedNumber;
    var t := TrimEnd(out);
    NestedTrimEnd(out, open);
    NestedPlain(t, open, "\n");
    var line := if t != "" && !EndsWith(t, "\n") then t + "\n" else t;
    NestedPlain(line, open, Decimal(NextOrderedNumber(line)) + ". ");
    NestedPlain(line, open, [0x2022 as char, ' ']);
  }

  lemma CloseTagNested(p: Pass, tag: Tag)
    requires Nested(p.out, p.open)
    ensures Nested(CloseTag(p, tag).out, CloseTag(p, tag).open)
  {
    var inner := LastIndex(p.open, tag);
    if inner < |p.open| { NestedCloseAll(p.out, p.open, inner + 1); } else { RolledBackIsValid(p.out, p.open); }
  }

  lemma ElementNested(p: Pass, raw: string)
    requires Nested(p.out, p.open)
    ensures Nested(Element(p, raw).out, Element(p, raw).open)
  {
    hide Nested, PushText, ParagraphBreak, LineBreak, PushSeparator, ListMarker, CloseTag, SkipRaw, TagName;
    NestedText(p.out, p.open, "<" + raw + ">");
    NestedBreaks(p.out, p.open);
    if p.lists != [] { NestedMarker(p.out, p.open, p.lists[|p.lists| - 1]); }
    var inner := if StartsWith(raw, "/") then raw[1..] else raw;
    var style := Styled(TagName(inner));
    if style.Some? {
      CloseTagNested(p, style.value);
      NestedOpen(p.out, p.open, style.value);
    }
  }

  lemma TurnNested(p: Pass)
    requires Nested(p.out, p.open) && p.rest != ""
    ensures Nested(Turn(p).out, Turn(p).open)
  {
    hide Nested, PushText, PushSeparator, Element, TagEnd;
    NestedBreaks(p.out, p.open);
    NestedText(p.out, p.open, p.rest);
    var lt, end := Find(p.rest, '<'), TagEnd(p.rest);
    NestedText(p.out, p.open, p.rest[..lt]);
    if end < |p.rest| { ElementNested(p.(rest := p.rest[end + 1..]), p.rest[1..end]); }
  }

  /** Through every truncation, close and rollback, each open tag points at its own opening markup
      and everything around it is valid markup. */
  lemma {:induction false} ScanNested(p: Pass)
    requires Nested(p.out, p.open)
    ensures Nested(Scan(p).out, Scan(p).open)
    decreases |p.rest|
  {
    hide Nested, Turn;
    if p.rest != "" {
      TurnNested(p);
      ScanNested(Turn(p));
    }
  }

  // ---------------------------------------------------------------- the final pass

  lemma {:induction false} CollapsedIsValid(before: string, s: string, run: nat)
    requires ValidMarkup(before + s)
    ensures ValidMarkup(before + CollapseNewlines(s, run))
    decreases |s|
  {
    hide ValidMarkup, CollapseNewlines;
    CollapseStep(s, run);
    if s != "" {
      if s[0] == '\n' && run >= 2 {
        assert before + s == before + ['\n'] + s[1..];
        WithoutIsValid(before, '\n', s[1..]);
        CollapsedIsValid(before, s[1..], run + 1);
      } else {
        var next := if s[0] == '\n' then run + 1 else 0;
        assert before + s == (before + [s[0]]) + s[1..];
        CollapsedIsValid(before + [s[0]], s[1..], next);
        Regroup(before, [s[0]], CollapseNewlines(s[1..], next));
      }
    }
  }

  lemma CollapseStep(s: string, run: nat)
    ensures CollapseNewlines(s, run) ==
            if s == "" then ""
            else if s[0] == '\n' && run >= 2 then CollapseNewlines(s[1..], run + 1)
            else [s[0]] + CollapseNewlines(s[1..], if s[0] == '\n' then run + 1 else 0)
  {
  }

  lemma WithoutIsValid(a: string, c: char, b: string)
    requires Filler(c) && ValidMarkup(a + [c] + b)
    ensures ValidMarkup(a + b)
  {
    ReadWithout(a, c, b, []);
  }

  lemma {:induction false} TrimmedStartIsValid(s: string)
    requires ValidMarkup(s)
    ensures ValidMarkup(TrimStart(s))
  {
    hide ValidMarkup;
    if s != "" && Space(s[0]) {
      assert s == "" + [s[0]] + s[1..] && "" + s[1..] == s[1..];
      WithoutIsValid("", s[0], s[1..]);
      TrimmedStartIsValid(s[1..]);
    }
  }

  lemma {:induction false} TrimmedEndIsValid(s: string)
    requires ValidMarkup(s)
    ensures ValidMarkup(TrimEnd(s))
    decreases |s|
  {
    hide ValidMarkup;
    if s != "" && Space(s[|s| - 1]) {
      TrimmedIsValid(s);
      TrimmedEndIsValid(s[..|s| - 1]);
    }
  }

  lemma FinishIsValid(out: string)
    requires ValidMarkup(out)
    ensures ValidMarkup(Finish(out))
  {
    hide ValidMarkup;
    var collapsed := CollapseNewlines(out, 0);
    assert "" + out == out && "" + collapsed == collapsed;
    CollapsedIsValid("", out, 0);
    TrimmedStartIsValid(collapsed);
    TrimmedEndIsValid(TrimStart(collapsed));
    var t := TrimEnd(TrimStart(collapsed));
    if EndsWith(t, "\n\n") {
      assert t[|t| - 1] == t[|t| - 2..][1] && t[|t| - 2] == t[|t| - 2..][0];
      TrimmedIsValid(t);
      TrimmedIsValid(t[..|t| - 1]);
      assert t[..|t| - 1][..|t| - 2] == t[..|t| - 2];
    }
  }

  /** For every input at all, the output is valid markup. */
  lemma OutputIsAlwaysValid(html: string)
    ensures ValidMarkup(HtmlToPango(html))
  {
    hide ValidMarkup, Scan, Finish;
    var p := Pass("", [], [], html);
    NothingIsValid();
    ScanNested(p);
    var q := Scan(p);
    NestedCloseAll(q.out, q.open, |q.open|);
    FinishIsValid(q.out + Closings(q.open, |q.open|));
  }

  lemma NothingIsValid()
    ensures ValidMarkup("")
  {
  }

  // ---------------------------------------------------------------- the text in the markup

  /** What is left of markup when the elements are taken out. */
  function TextOf(s: string): string
    decreases |s|
  {
    if s == "" then ""
    else
      var first := First(s);
      if first.0 == Bad then s
      else (if first.0 == Character then s[..first.1] else "") + TextOf(s[first.1..])
  }

  lemma TextOfFirst(s: string)
    requires s != "" && First(s).0 != Bad
    ensures TextOf(s) == (if First(s).0 == Character then s[..First(s).1] else "") + TextOf(s[First(s).1..])
  {
  }

  lemma {:induction false} TextOfAll(a: string, b: string, stack: seq<Tag>)
    requires Read(a, stack).Some?
    ensures TextOf(a + b) == TextOf(a) + TextOf(b)
    decreases |a|
  {
    hide First, After, TextOf;
    if a == "" {
      assert a + b == b;
      TextOfNothing(b);
    } else {
      var first := First(a);
      FirstOn(a, b);
      TextOfAll(a[first.1..], b, After(stack, first.0).value);
      TextOfFirst(a);
      TextOfFirst(a + b);
      assert (a + b)[..first.1] == a[..first.1];
      Regroup(if first.0 == Character then a[..first.1] else "", TextOf(a[first.1..]), TextOf(b));
    }
  }

  lemma TextOfNothing(b: string)
    ensures TextOf("") + TextOf(b) == TextOf(b)
  {
  }

  lemma TextOfTags(tag: Tag)
    ensures TextOf(Opening(tag)) == "" && TextOf(Closing(tag)) == "" && Read(Opening(tag), []) == Some([tag])
  {
    assert Opening(tag)[3..] == "" && Closing(tag)[4..] == "" && [] + [tag] == [tag];
    assert First(Opening(tag)) == (Start(tag), 3) && First(Closing(tag)) == (End(tag), 4);
  }

  lemma {:induction false} NestedReads(out: string, open: seq<Open>)
    requires Nested(out, open)
    ensures Read(out, []).Some?
    decreases |open|
  {
    hide Read, After;
    if open == [] {
      ValidReads(out);
    } else {
      var o, outer := open[|open| - 1], open[..|open| - 1];
      var head, body := out[..o.at], out[o.at + 3..];
      NestedReads(head, outer);
      ValidReads(body);
      TextOfTags(o.tag);
      ReadInside(body, [o.tag], []);
      ReadOn(Opening(o.tag), body, []);
      assert [o.tag] + [] == [o.tag];
      var below := Read(head, []).value;
      ReadInside(Opening(o.tag) + body, below, []);
      assert below + [] == below;
      ReadOn(head, Opening(o.tag) + body, []);
      assert out == head + (out[o.at..o.at + 3] + body);
    }
  }

  lemma ValidReads(s: string)
    requires ValidMarkup(s)
    ensures Read(s, []) == Some([])
  {
  }

  /** Opening, closing and rolling back elements never touches the text. */
  lemma {:induction false} RolledBackKeepsText(out: string, open: seq<Open>)
    requires Nested(out, open)
    ensures TextOf(RolledBack(out, open)) == TextOf(out)
    decreases |open|
  {
    hide TextOf, Read, First, Opening;
    if open != [] {
      var o, outer := open[|open| - 1], open[..|open| - 1];
      var head, body := out[..o.at], out[o.at + 3..];
      RolledBackKeepsText(head, outer);
      RolledBackIsValid(head, outer);
      NestedReads(head, outer);
      TextOfTags(o.tag);
      TextOfAll(RolledBack(head, outer), body, []);
      TextOfAll(Opening(o.tag), body, []);
      TextOfAll(head, Opening(o.tag) + body, []);
      assert out == head + (out[o.at..o.at + 3] + body);
      assert "" + TextOf(body) == TextOf(body);
    }
  }

  lemma {:induction false} ClosingsHaveNoText(open: seq<Open>, count: nat)
    requires count <= |open|
    ensures TextOf(Closings(open, count)) == ""
    decreases count
  {
    hide TextOf, First, Closing;
    if count == 0 {
      TextOfNothing("");
    } else {
      var tag, rest := open[|open| - 1].tag, Closings(open[..|open| - 1], count - 1);
      ClosingsHaveNoText(open[..|open| - 1], count - 1);
      TagFirst(tag, rest);
      TextOfFirst(Closing(tag) + rest);
    }
  }

  /** An end tag, whether it closes, closes across other elements or rolls everything back, leaves
      the text shown so far as it was. */
  lemma EndTagKeepsText(p: Pass, tag: Tag)
    requires Nested(p.out, p.open)
    ensures TextOf(CloseTag(p, tag).out) == TextOf(p.out)
  {
    hide TextOf, Read;
    var inner := LastIndex(p.open, tag);
    if inner < |p.open| {
      NestedReads(p.out, p.open);
      TextOfAll(p.out, Closings(p.open, inner + 1), []);
      ClosingsHaveNoText(p.open, inner + 1);
      assert TextOf(p.out) + "" == TextOf(p.out);
    } else {
      RolledBackKeepsText(p.out, p.open);
    }
  }

  lemma StartTagKeepsText(p: Pass, tag: Tag)
    requires Nested(p.out, p.open)
    ensures TextOf(OpenTag(p, tag).out) == TextOf(p.out)
  {
    hide TextOf, Read;
    NestedReads(p.out, p.open);
    TextOfAll(p.out, Opening(tag), []);
    TextOfTags(tag);
    assert TextOf(p.out) + "" == TextOf(p.out);
  }
}
