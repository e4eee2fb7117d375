/** The converter in its own form: a scanning loop that advances `rest` while pushing to and
    truncating `out` and the stacks of open tags and lists. */
module RichTextScanner {
  import opened Prelude
  import opened RichText
  import opened RichTextMarkup
  import opened RichTextMeaning

  // ---------------------------------------------------------------- text

  lemma {:induction false} CollapseLast(text: string, inSpace: bool, c: char)
    ensures Collapse(text + [c], inSpace) ==
            Collapse(text, inSpace) + (if !HtmlSpace(c) then [c] else if EndsInSpace(text, inSpace) then "" else " ")
  {
    if text == "" {
      assert (text + [c])[1..] == "";
    } else {
      assert (text + [c])[1..] == text[1..] + [c];
      CollapseLast(text[1..], HtmlSpace(text[0]), c);
      var more := if !HtmlSpace(c) then [c] else if EndsInSpace(text[1..], HtmlSpace(text[0])) then "" else " ";
      var head := if !HtmlSpace(text[0]) then [text[0]] else if inSpace then "" else " ";
      assert head + (Collapse(text[1..], HtmlSpace(text[0])) + more) == (head + Collapse(text[1..], HtmlSpace(text[0]))) + more;
    }
  }

  predicate EndsInSpace(text: string, inSpace: bool) { if text == "" then inSpace else HtmlSpace(text[|text| - 1]) }

  method CollapseSpaces(text: string) returns (collapsed: string)
    ensures collapsed == Collapse(text, false)
  {
    collapsed := "";
    var inSpace := false;
    for i := 0 to |text|
      invariant collapsed == Collapse(text[..i], false) && inSpace == EndsInSpace(text[..i], false)
    {
      CollapseLast(text[..i], false, text[i]);
      assert text[..i + 1] == text[..i] + [text[i]];
      if HtmlSpace(text[i]) {
        if !inSpace {
          collapsed := collapsed + " ";
        }
        inSpace := true;
      } else {
        collapsed := collapsed + [text[i]];
        inSpace := false;
      }
    }
    assert text[..|text|] == text;
  }

  method EscapeInto(out: string, text: string) returns (r: string)
    ensures r == out + Escape(text)
  {
    r := out;
    for i := 0 to |text|
      invariant r + Escape(text[i..]) == out + Escape(text)
    {
      assert text[i..][1..] == text[i + 1..];
      r := r + EscapeChar(text[i]);
    }
  }

  lemma {:induction false} DecodedUpTo(rest: string)
    ensures var amp := Find(rest, '&'); Decoded(rest) == rest[..amp] + Decoded(rest[amp..])
  {
    hide Decoded;
    var amp := Find(rest, '&');
    if rest != "" && amp > 0 {
      DecodedCharacter(rest);
      DecodedUpTo(rest[1..]);
      assert rest[1..][..amp - 1] == rest[1..amp] && rest[1..][amp - 1..] == rest[amp..];
      assert rest[..amp] == [rest[0]] + rest[1..amp];
    } else {
      assert rest[..amp] == "" && rest[amp..] == rest;
    }
  }

  lemma UpToAmpersand(rest: string, r: string)
    ensures var amp := Find(rest, '&');
            (r + Escape(rest[..amp])) + Escape(Decoded(rest[amp..])) == r + Escape(Decoded(rest))
  {
    hide Decoded, Escape;
    var amp := Find(rest, '&');
    DecodedUpTo(rest);
    EscapeAll(rest[..amp], Decoded(rest[amp..]));
  }

  /** Writes a text's characters escaped, from one ampersand to the next. */
  method PushDecoded(out: string, text: string) returns (r: string)
    ensures r == out + Escape(Decoded(text))
  {
    hide Decoded, Escape, DecodeEntity, LiteralRun;
    r := out;
    var rest := text;
    while Find(rest, '&') < |rest|
      invariant r + Escape(Decoded(rest)) == out + Escape(Decoded(text))
      decreases |rest|
    {
      var amp := Find(rest, '&');
      UpToAmpersand(rest, r);
      r := EscapeInto(r, rest[..amp]);
      rest := rest[amp..];
      DecodedNext(rest, r);
      var hit := DecodeEntity(rest);
      if hit.Some? {
        r := r + EscapeChar(hit.value.0);
        rest := rest[hit.value.1..];
      } else {
        var run := LiteralRun(rest);
        r := EscapeInto(r, run.0);
        rest := rest[run.1..];
      }
    }
    DecodedEnd(rest);
    r := EscapeInto(r, rest);
  }

  /** Appends a text node: white space collapsed, entities decoded, markup characters escaped. */
  method PushTextInto(out: string, text: string) returns (r: string)
    ensures r == PushText(out, text)
  {
    hide Decoded, Escape, Collapse;
    var collapsed := CollapseSpaces(text);
    if Separated(out) && StartsWith(collapsed, " ") {
      collapsed := collapsed[1..];
    }
    r := PushDecoded(out, collapsed);
  }

  lemma DecodedEnd(rest: string)
    requires Find(rest, '&') == |rest|
    ensures Decoded(rest) == rest
  {
    DecodedUpTo(rest);
    assert rest[|rest|..] == "" && rest[..|rest|] == rest && rest + "" == rest;
  }

  lemma DecodedNext(rest: string, r: string)
    requires rest != "" && rest[0] == '&'
    ensures var hit, run := DecodeEntity(rest), LiteralRun(rest);
            r + Escape(Decoded(rest)) ==
            if hit.Some? then (r + EscapeChar(hit.value.0)) + Escape(Decoded(rest[hit.value.1..]))
            else (r + Escape(run.0)) + Escape(Decoded(rest[run.1..]))
  {
    hide DecodeEntity, LiteralRun;
    var hit, run := DecodeEntity(rest), LiteralRun(rest);
    if hit.Some? {
      var c, tail := hit.value.0, Decoded(rest[hit.value.1..]);
      assert ([c] + tail)[1..] == tail;
      assert Escape([c] + tail) == EscapeChar(c) + Escape(tail);
    } else {
      EscapeAll(run.0, Decoded(rest[run.1..]));
    }
  }

  // ---------------------------------------------------------------- tags

  method FindTagEnd(s: string) returns (end: nat)
    requires s != ""
    ensures end == TagEnd(s)
  {
    var quote: Option<char> := None;
    end := 1;
    while end < |s| && !(quote.None? && s[end] == '>')
      invariant 1 <= end <= |s| && TagEndFrom(s, end, quote) == TagEnd(s)
      decreases |s| - end
    {
      if quote.Some? {
        if s[end] == quote.value {
          quote := None;
        }
      } else if s[end] == '"' || s[end] == '\'' {
        quote := Some(s[end]);
      }
      end := end + 1;
    }
  }

  method SkipRawElement(rest: string, name: string) returns (r: string)
    ensures r == SkipRaw(rest, name)
  {
    var search, close := rest, "/" + name;
    while Find(search, '<') < |search|
      invariant SkipRaw(search, name) == SkipRaw(rest, name)
      decreases |search|
    {
      var after := search[Find(search, '<') + 1..];
      if |after| > |close| && LowerAll(after[..|close|]) == close && (after[|close|] == '>' || after[|close|] == ' ' || after[|close|] == '/') {
        var end := FindTagEnd(after);
        return if end == |after| then "" else after[end + 1..];
      }
      search := after;
    }
    r := "";
  }

  /** Where the markup after the `k`-th opening markup starts; the end of the output for the last. */
  function NextStart(out: string, open: seq<Open>, k: nat): nat { if k + 1 < |open| then open[k + 1].at else |out| }

  /** Each open tag's opening markup lies wholly before the next one's. */
  predicate Ascending(out: string, open: seq<Open>) { forall k :: 0 <= k < |open| ==> open[k].at + 3 <= NextStart(out, open, k) }

  lemma {:induction false} NestedAscends(out: string, open: seq<Open>)
    requires Nested(out, open)
    ensures Ascending(out, open)
    decreases |open|
  {
    if open != [] {
      var o, outer := open[|open| - 1], open[..|open| - 1];
      NestedAscends(out[..o.at], outer);
      forall k | 0 <= k < |open| ensures open[k].at + 3 <= NextStart(out, open, k) {
        if k < |outer| { assert outer[k].at + 3 <= NextStart(out[..o.at], outer, k); }
      }
    }
  }

  /** The rollback in one pass from left to right, skipping each opening markup. */
  method RollBack(out: string, open: seq<Open>) returns (rebuilt: string)
    requires Ascending(out, open)
    ensures rebuilt == RolledBack(out, open)
  {
    hide RolledBack;
    rebuilt := "";
    var lastEnd: nat := 0;
    for i := 0 to |open|
      invariant i == 0 ==> rebuilt == "" && lastEnd == 0
      invariant i > 0 ==> lastEnd == open[i - 1].at + 3 && open[i - 1].at <= |out|
                          && rebuilt == RolledBack(out[..open[i - 1].at], open[..i - 1])
    {
      var at := open[i].at;
      assert i > 0 ==> open[i - 1].at + 3 <= NextStart(out, open, i - 1) == at;
      AscendingBound(out, open, i);
      RolledBackTo(out, open, i, at);
      rebuilt := rebuilt + out[lastEnd..at];
      lastEnd := at + 3;
    }
    if |open| > 0 { AscendingBound(out, open, |open| - 1); }
    RolledBackTo(out, open, |open|, |out|);
    assert out[..|out|] == out && open[..|open|] == open;
    rebuilt := rebuilt + out[lastEnd..];
  }

  lemma {:induction false} AscendingBound(out: string, open: seq<Open>, i: nat)
    requires Ascending(out, open) && i < |open|
    ensures open[i].at + 3 <= |out|
    decreases |open| - i
  {
    assert open[i].at + 3 <= NextStart(out, open, i);
    if i + 1 < |open| { AscendingBound(out, open, i + 1); }
  }

  /** Rolling back the first `i` tags of the output up to `end`, by the last of them. */
  lemma RolledBackTo(out: string, open: seq<Open>, i: nat, end: nat)
    requires i <= |open| && end <= |out| && (i > 0 ==> open[i - 1].at + 3 <= end)
    ensures RolledBack(out[..end], open[..i]) ==
            if i == 0 then out[..end] else RolledBack(out[..open[i - 1].at], open[..i - 1]) + out[open[i - 1].at + 3..end]
  {
    if i > 0 {
      assert open[..i][..i - 1] == open[..i - 1];
      assert out[..end][..open[i - 1].at] == out[..open[i - 1].at];
      assert out[..end][open[i - 1].at + 3..] == out[open[i - 1].at + 3..end];
    }
  }

  /** Closes a tag with everything opened inside it, or rolls every open tag back. */
  method ClosePangoTag(out: string, open: seq<Open>, tag: Tag) returns (r: string, left: seq<Open>)
    requires Ascending(out, open)
    ensures Pass(r, left, [], "") == CloseTag(Pass(out, open, [], ""), tag)
  {
    var inner := LastIndex(open, tag);
    if inner == |open| {
      r := RollBack(out, open);
      return r, [];
    }
    r, left := CloseInnermost(out, open, inner + 1);
  }

  method CloseInnermost(out: string, open: seq<Open>, count: nat) returns (r: string, left: seq<Open>)
    requires count <= |open|
    ensures r == out + Closings(open, count) && left == open[..|open| - count]
  {
    r, left := out, open;
    var i := 0;
    while i < count
      invariant 0 <= i <= count && left == open[..|open| - i]
      invariant r + Closings(left, count - i) == out + Closings(open, count)
    {
      assert left[..|left| - 1] == open[..|open| - i - 1];
      r := r + Closing(left[|left| - 1].tag);
      left := left[..|left| - 1];
      i := i + 1;
    }
    assert r + "" == r;
  }

  // ---------------------------------------------------------------- the whole conversion

  lemma {:induction false} CollapseNewlinesLast(s: string, run: nat, c: char)
    ensures CollapseNewlines(s + [c], run) ==
            CollapseNewlines(s, run) + (if c != '\n' then [c] else if RunAfter(s, run) < 2 then "\n" else "")
  {
    if s == "" {
      assert (s + [c])[1..] == "";
    } else {
      assert (s + [c])[1..] == s[1..] + [c];
      var next := if s[0] == '\n' then run + 1 else 0;
      CollapseNewlinesLast(s[1..], next, c);
      var head := if s[0] != '\n' then [s[0]] else if run < 2 then "\n" else "";
      var more := if c != '\n' then [c] else if RunAfter(s[1..], next) < 2 then "\n" else "";
      assert head + (CollapseNewlines(s[1..], next) + more) == (head + CollapseNewlines(s[1..], next)) + more;
    }
  }

  function RunAfter(s: string, run: nat): nat {
    if s == "" then run else RunAfter(s[1..], if s[0] == '\n' then run + 1 else 0)
  }

  lemma {:induction false} RunAfterLast(s: string, run: nat, c: char)
    ensures RunAfter(s + [c], run) == if c == '\n' then RunAfter(s, run) + 1 else 0
  {
    if s == "" {
      assert (s + [c])[1..] == "";
    } else {
      assert (s + [c])[1..] == s[1..] + [c];
      RunAfterLast(s[1..], if s[0] == '\n' then run + 1 else 0, c);
    }
  }

  method FinishOutput(out: string) returns (r: string)
    ensures r == Finish(out)
  {
    var collapsed, newlineRun: nat := "", 0;
    for i := 0 to |out|
      invariant collapsed == CollapseNewlines(out[..i], 0) && newlineRun == RunAfter(out[..i], 0)
    {
      CollapseNewlinesLast(out[..i], 0, out[i]);
      RunAfterLast(out[..i], 0, out[i]);
      assert out[..i + 1] == out[..i] + [out[i]];
      if out[i] == '\n' {
        newlineRun := newlineRun + 1;
        if newlineRun <= 2 {
          collapsed := collapsed + [out[i]];
        }
      } else {
        newlineRun := 0;
        collapsed := collapsed + [out[i]];
      }
    }
    assert out[..|out|] == out;
    var trimmed := TrimEnd(TrimStart(collapsed));
    r := if EndsWith(trimmed, "\n\n") then trimmed[..|trimmed| - 2] else trimmed;
  }

  /** What one tag does, given what was read of it. */
  method ReadElement(p: Pass, raw: string) returns (q: Pass)
    requires Ascending(p.out, p.open)
    ensures q == Element(p, raw)
  {
    hide PushText, ParagraphBreak, LineBreak, ListMarker, SkipRaw, CloseTag, Ascending;
    q := p;
    var closing := StartsWith(raw, "/");
    var inner := if closing then raw[1..] else raw;
    if inner == "" || !AsciiLetter(inner[0]) {
      var text := PushTextInto(q.out, "<" + raw + ">");
      return q.(out := text);
    }
    var name := TagName(inner);
    var style := Styled(name);
    if closing && style.Some? && name != "p" {
      var out, open := ClosePangoTag(q.out, q.open, style.value);
      ClosesAlike(p, style.value);
      return q.(out := out, open := open);
    }
    if closing {
      return CloseElement(q, name);
    }
    if name == "script" || name == "style" {
      var rest := SkipRawElement(q.rest, name);
      return q.(rest := rest);
    }
    return OpenElement(q, name);
  }

  lemma ClosesAlike(p: Pass, tag: Tag)
    ensures var q := CloseTag(Pass(p.out, p.open, [], ""), tag); CloseTag(p, tag) == p.(out := q.out, open := q.open)
  {
  }

  /** The conversion of a whole description. Its output is always valid markup. */
  method Convert(html: string) returns (markup: string)
    ensures markup == HtmlToPango(html) && ValidMarkup(markup)
  {
    hide Nested, Element, PushText, PushSeparator, Finish, TagEnd, ValidMarkup;
    var p := Pass("", [], [], html);
    NothingIsNested();
    while p.rest != ""
      invariant Nested(p.out, p.open)
      invariant Scan(p) == Scan(Pass("", [], [], html))
      decreases |p.rest|
    {
      TurnNested(p);
      NestedAscends(p.out, p.open);
      p := TakeTurn(p);
    }
    var out, left := CloseInnermost(p.out, p.open, |p.open|);
    OutputIsAlwaysValid(html);
    markup := FinishOutput(out);
  }

  lemma NothingIsNested()
    ensures Nested("", [])
  {
  }

  method TakeTurn(p: Pass) returns (q: Pass)
    requires p.rest != "" && Ascending(p.out, p.open)
    ensures q == Turn(p)
  {
    hide Element, PushText, PushSeparator, TagEnd;
    if StartsWith(p.rest, "<!--") {
      var end := FindText(p.rest, "-->");
      return if end == |p.rest| then p.(rest := "") else p.(out := PushSeparator(p.out), rest := p.rest[end + 3..]);
    }
    var lt := Find(p.rest, '<');
    if lt == |p.rest| {
      var out := PushTextInto(p.out, p.rest);
      return p.(out := out, rest := "");
    }
    if lt > 0 {
      var out := PushTextInto(p.out, p.rest[..lt]);
      return p.(out := out, rest := p.rest[lt..]);
    }
    var end := FindTagEnd(p.rest);
    if end == |p.rest| {
      var out := PushTextInto(p.out, p.rest);
      return p.(out := out, rest := "");
    }
    q := ReadElement(p.(rest := p.rest[end + 1..]), p.rest[1..end]);
  }
}
