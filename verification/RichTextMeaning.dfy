/** What the conversion preserves. Decoding undoes escaping, so text whose white space is normalised
    comes back as it was once escaped; text without tags is shown as what it decodes to, which is a
    fixpoint of the conversion exactly when the text shown has no two adjacent blanks. The lemmas go
    from entities and escaping over white space and trimming to whole texts without tags, and end
    with an input that a second conversion changes. `RichTextTrees` goes on from here to styled text,
    whose structure and text are both kept, and `RichTextDocuments` to paragraphs and lists. */
module RichTextMeaning {
  import opened Prelude
  import opened RichText

  // ---------------------------------------------------------------- decoding and escaping

  lemma EscapedDecodes(c: char, rest: string)
    requires c == '&' || c == '<' || c == '>'
    ensures DecodeEntity(EscapeChar(c) + rest) == Some((c, |EscapeChar(c)|)) && (EscapeChar(c) + rest)[|EscapeChar(c)|..] == rest
  {
    var e := EscapeChar(c);
    var s := e + rest;
    assert forall i :: 0 <= i < |e| ==> s[i] == e[i];
    assert s[|e| - 1] == ';';
    SemicolonAt(s, |e| - 1);
    StartIndex(s, "&#", 1);
    StartIndex(s, "&#x", 1);
    StartIndex(s, "&#X", 1);
    assert s[1..|e| - 1] == if c == '&' then "amp" else if c == '<' then "lt" else "gt";
    assert DecodeEntity(s) == Some((c, |e|));
    assert s[|e|..] == rest;
  }

  lemma DecodedEntity(rest: string, c: char, taken: nat)
    requires rest != "" && rest[0] == '&' && DecodeEntity(rest) == Some((c, taken))
    ensures Decoded(rest) == [c] + Decoded(rest[taken..])
  {
    hide DecodeEntity;
  }

  lemma DecodedCharacter(rest: string)
    requires rest != "" && rest[0] != '&'
    ensures Decoded(rest) == [rest[0]] + Decoded(rest[1..])
  {
  }

  lemma StartIndex(s: string, prefix: string, i: nat)
    requires i < |prefix|
    ensures StartsWith(s, prefix) ==> i < |s| && s[i] == prefix[i]
  {
    if StartsWith(s, prefix) { assert s[..|prefix|][i] == s[i]; }
  }

  lemma EndIndex(s: string, suffix: string, i: nat)
    requires i < |suffix|
    ensures EndsWith(s, suffix) ==> suffix[i] in s
  {
    if EndsWith(s, suffix) { assert s[|s| - |suffix|..][i] == s[|s| - |suffix| + i]; }
  }

  lemma SemicolonAt(s: string, k: nat)
    requires k < |s| && s[k] == ';' && forall i :: 0 <= i < k ==> s[i] != ';'
    ensures Find(s, ';') == k
  {
  }

  /** Decoding undoes escaping, for every text. */
  lemma {:induction false} DecodeUndoesEscape(text: string)
    ensures Decoded(Escape(text)) == text
    decreases |text|
  {
    hide Decoded, DecodeEntity;
    if text == "" {
      DecodedNothing();
    } else {
      var c, rest := text[0], Escape(text[1..]);
      DecodeUndoesEscape(text[1..]);
      if c == '&' || c == '<' || c == '>' {
        EscapedDecodes(c, rest);
        DecodedEntity(EscapeChar(c) + rest, c, |EscapeChar(c)|);
      } else {
        assert (EscapeChar(c) + rest)[1..] == rest;
        DecodedCharacter(EscapeChar(c) + rest);
      }
    }
  }

  lemma DecodedNothing()
    ensures Decoded("") == ""
  {
  }

  lemma EscapeIsInjective(a: string, b: string)
    requires Escape(a) == Escape(b)
    ensures a == b
  {
    hide Escape, Decoded;
    DecodeUndoesEscape(a);
    DecodeUndoesEscape(b);
  }

  lemma {:induction false} EscapeAll(a: string, b: string)
    ensures Escape(a + b) == Escape(a) + Escape(b)
  {
    if a == "" {
      assert a + b == b;
    } else {
      assert (a + b)[1..] == a[1..] + b;
      EscapeAll(a[1..], b);
    }
  }

  lemma {:induction false} EscapeHasNoTag(text: string)
    ensures '<' !in Escape(text)
  {
    if text != "" { EscapeHasNoTag(text[1..]); }
  }

  // ---------------------------------------------------------------- white space

  /** Blanks are the only white space. */
  predicate BlanksOnly(s: string) { forall c :: c in s && HtmlSpace(c) ==> c == ' ' }

  /** Blanks are the only white space, and no two of them are adjacent. */
  predicate SingleSpaced(s: string) { BlanksOnly(s) && forall i :: 0 < i < |s| ==> !(s[i - 1] == ' ' && s[i] == ' ') }

  /** Text as it is shown: single blanks, none at the edges. */
  predicate Normalised(s: string) { SingleSpaced(s) && (s != "" ==> s[0] != ' ' && s[|s| - 1] != ' ') }

  lemma {:induction false} CollapsedBlanks(text: string, inSpace: bool)
    ensures BlanksOnly(Collapse(text, inSpace))
  {
    if text != "" { CollapsedBlanks(text[1..], HtmlSpace(text[0])); }
  }

  /** Collapsing changes nothing exactly when there is nothing to collapse. */
  lemma {:induction false} CollapseIsIdentityIff(s: string, inSpace: bool)
    requires BlanksOnly(s)
    ensures Collapse(s, inSpace) == s <==> SingleSpaced(s) && (inSpace && s != "" ==> s[0] != ' ')
    ensures |Collapse(s, inSpace)| <= |s|
  {
    if s != "" {
      var space := HtmlSpace(s[0]);
      assert s[0] in s;
      CollapseIsIdentityIff(s[1..], space);
      if SingleSpaced(s) {
        assert forall i :: 0 < i < |s[1..]| ==> s[1..][i - 1] == s[i] && s[1..][i] == s[i + 1];
        if space && |s| > 1 { assert !(s[0] == ' ' && s[1] == ' '); }
      }
      if SingleSpaced(s[1..]) && (space && s[1..] != "" ==> s[1..][0] != ' ') {
        forall i | 0 < i < |s| ensures !(s[i - 1] == ' ' && s[i] == ' ') {
          if i > 1 { assert s[1..][i - 2] == s[i - 1] && s[1..][i - 1] == s[i]; }
        }
      }
      if Collapse(s, inSpace) == s { assert Collapse(s, inSpace)[1..] == s[1..]; }
    }
  }

  lemma {:induction false} CollapseEscaped(text: string, inSpace: bool)
    ensures Collapse(Escape(text), inSpace) == Escape(Collapse(text, inSpace))
    decreases |text|
  {
    if text != "" {
      var c, rest := text[0], Escape(text[1..]);
      CollapseEscaped(text[1..], HtmlSpace(c));
      if c == '&' || c == '<' || c == '>' {
        CollapseWord(EscapeChar(c), rest, inSpace);
      } else {
        assert (EscapeChar(c) + rest)[1..] == rest;
      }
      var tail := Collapse(text[1..], HtmlSpace(c));
      assert ("" + tail) == tail && (" " + tail)[1..] == tail && ([c] + tail)[1..] == tail;
    }
  }

  lemma {:induction false} CollapseWord(word: string, rest: string, inSpace: bool)
    requires word != "" && forall c :: c in word ==> !HtmlSpace(c)
    ensures Collapse(word + rest, inSpace) == word + Collapse(rest, false)
    decreases |word|
  {
    assert (word + rest)[1..] == word[1..] + rest;
    if |word| > 1 {
      CollapseWord(word[1..], rest, false);
    } else {
      assert word[1..] + rest == rest;
    }
  }

  lemma EntityCharacter(rest: string)
    requires rest != "" && rest[0] == '&' && DecodeEntity(rest).Some?
    ensures !HtmlSpace(DecodeEntity(rest).value.0) || DecodeEntity(rest).value.0 == ' '
  {
  }

  /** Decoding brings in no white space but blanks. */
  lemma {:induction false} DecodedBlanks(rest: string)
    requires BlanksOnly(rest)
    ensures BlanksOnly(Decoded(rest))
    decreases |rest|
  {
    if rest != "" {
      assert rest[0] in rest;
      if rest[0] != '&' {
        DecodedBlanks(rest[1..]);
      } else if DecodeEntity(rest).Some? {
        EntityCharacter(rest);
        DecodedBlanks(rest[DecodeEntity(rest).value.1..]);
      } else {
        DecodedBlanks(rest[LiteralRun(rest).1..]);
      }
    }
  }

  function Trim(s: string): string { TrimEnd(TrimStart(s)) }

  lemma {:induction false} TrimStartEscaped(text: string)
    requires BlanksOnly(text)
    ensures TrimStart(Escape(text)) == Escape(TrimStart(text)) && BlanksOnly(TrimStart(text))
  {
    if text != "" {
      assert text[0] in text;
      assert (EscapeChar(text[0]) + Escape(text[1..]))[0] == EscapeChar(text[0])[0];
      if text[0] == ' ' {
        TrimStartEscaped(text[1..]);
        assert Escape(text)[1..] == Escape(text[1..]);
      }
    }
  }

  lemma EscapeLast(init: string, last: char)
    ensures Escape(init + [last]) == Escape(init) + EscapeChar(last)
  {
    assert [last][1..] == "" && EscapeChar(last) + "" == EscapeChar(last);
    EscapeAll(init, [last]);
  }

  lemma {:induction false} TrimEndEscaped(text: string)
    requires BlanksOnly(text)
    ensures TrimEnd(Escape(text)) == Escape(TrimEnd(text)) && BlanksOnly(TrimEnd(text))
    decreases |text|
  {
    hide Escape, EscapeChar, BlanksOnly, HtmlSpace;
    if text == "" {
      EscapeNothing();
    } else {
      var init, last := text[..|text| - 1], text[|text| - 1];
      assert text == init + [last];
      EscapeLast(init, last);
      LastEscaped(init, last);
      var e := Escape(text);
      if last == ' ' {
        TrimEndEscaped(init);
        assert e[..|e| - 1] == Escape(init);
      }
    }
  }

  lemma LastEscaped(init: string, last: char)
    requires BlanksOnly(init + [last])
    ensures EscapeChar(last) != "" && Space(EscapeChar(last)[|EscapeChar(last)| - 1]) == (last == ' ') == Space(last)
    ensures BlanksOnly(init) && (last == ' ' ==> |EscapeChar(last)| == 1)
  {
    assert last in init + [last];
    assert forall c :: c in init ==> c in init + [last];
  }

  lemma EscapeNothing()
    ensures Escape("") == ""
  {
  }

  lemma {:induction false} NoNewlinesToCollapse(s: string, run: nat)
    requires '\n' !in s
    ensures CollapseNewlines(s, run) == s
  {
    if s != "" { NoNewlinesToCollapse(s[1..], 0); }
  }

  lemma TrimKeeps(s: string, c: char)
    requires c !in s
    ensures c !in Trim(s)
  {
    TrimStartKeeps(s, c);
    var t := TrimStart(s);
    assert TrimEnd(t) <= t;
  }

  lemma {:induction false} TrimStartKeeps(s: string, c: char)
    requires c !in s
    ensures c !in TrimStart(s)
  {
    if s != "" && Space(s[0]) { TrimStartKeeps(s[1..], c); }
  }

  lemma FinishOneLine(out: string)
    requires '\n' !in out
    ensures Finish(out) == Trim(out)
  {
    NoNewlinesToCollapse(out, 0);
    TrimKeeps(out, '\n');
    EndIndex(Trim(out), "\n\n", 0);
  }

  // ---------------------------------------------------------------- text without tags

  /** What text without tags is shown as: collapsed, decoded and trimmed. */
  function Shown(html: string): string { Trim(Decoded(Collapse(html, false))) }

  lemma NoTagNoComment(s: string)
    requires '<' !in s
    ensures !StartsWith(s, "<!--")
  {
    StartIndex(s, "<!--", 0);
  }

  lemma OneTurn(html: string)
    requires '<' !in html && html != ""
    ensures Scan(Pass("", [], [], html)) == Pass(Escape(Decoded(Collapse(html, false))), [], [], "")
  {
    hide Escape, Decoded, Collapse;
    NoTagNoComment(html);
    assert Find(html, '<') == |html|;
    var p := Turn(Pass("", [], [], html));
    assert "" + Escape(Decoded(Collapse(html, false))) == Escape(Decoded(Collapse(html, false)));
    assert p == Pass(PushText("", html), [], [], "") && !Separated("");
  }

  lemma {:induction false} EscapeKeepsOthers(text: string, c: char)
    requires c !in text && c !in "&lt;gt;amp;"
    ensures c !in Escape(text)
  {
    if text != "" { EscapeKeepsOthers(text[1..], c); }
  }

  lemma BlanksAreNotNewlines(s: string)
    requires BlanksOnly(s)
    ensures '\n' !in s
  {
  }

  /** Text without tags is shown as what it decodes to, escaped. */
  lemma TagFreeIsShown(html: string)
    requires '<' !in html
    ensures HtmlToPango(html) == Escape(Shown(html)) && BlanksOnly(Shown(html))
  {
    hide Scan, Finish, Escape, Decoded, Collapse, TrimStart, TrimEnd, BlanksOnly;
    var d := Decoded(Collapse(html, false));
    CollapsedBlanks(html, false);
    DecodedBlanks(Collapse(html, false));
    BlanksAreNotNewlines(d);
    EscapeKeepsOthers(d, '\n');
    if html == "" { NothingTurns(); } else { OneTurn(html); }
    assert Escape(d) + "" == Escape(d);
    FinishOneLine(Escape(d));
    TrimStartEscaped(d);
    TrimEndEscaped(TrimStart(d));
  }

  lemma NothingTurns()
    ensures Scan(Pass("", [], [], "")) == Pass("", [], [], "") && Escape(Decoded(Collapse("", false))) == ""
  {
  }

  /** Decode and re-escape undo each other: escaped text with single blanks and none at its edges
      comes back as it is, whatever entities it spells. */
  lemma EscapedTextIsKept(text: string)
    requires Normalised(text)
    ensures HtmlToPango(Escape(text)) == Escape(text)
  {
    hide HtmlToPango, Escape, Collapse;
    if text != "" { assert text[0] in text && text[|text| - 1] in text; }
    ShownAgain(text);
    CollapseIsIdentityIff(text, false);
  }

  /** Trimmed text has no blank at its edges, and collapsing it does not bring one there. */
  lemma {:induction false} CollapseKeepsEdges(s: string, inSpace: bool)
    requires BlanksOnly(s) && s != "" && s[|s| - 1] != ' '
    ensures Collapse(s, inSpace) != "" && Collapse(s, inSpace)[|Collapse(s, inSpace)| - 1] != ' '
    decreases |s|
  {
    assert s[0] in s && s[|s| - 1] in s;
    if |s| > 1 {
      CollapseKeepsEdges(s[1..], HtmlSpace(s[0]));
    } else {
      assert s[1..] == "";
    }
  }

  lemma TrimmedEdges(s: string)
    ensures Trim(s) != "" ==> !Space(Trim(s)[0]) && !Space(Trim(s)[|Trim(s)| - 1])
  {
    var t := TrimStart(s);
    if TrimEnd(t) != "" { assert TrimEnd(t)[0] == t[0]; }
  }

  lemma TrimNothing(s: string)
    requires s != "" ==> !Space(s[0]) && !Space(s[|s| - 1])
    ensures Trim(s) == s
  {
  }

  /** Converting shown text again collapses the blanks it decoded from entities, and nothing else. */
  lemma ShownAgain(text: string)
    requires BlanksOnly(text) && (text != "" ==> !Space(text[0]) && !Space(text[|text| - 1]))
    ensures HtmlToPango(Escape(text)) == Escape(Collapse(text, false))
  {
    hide HtmlToPango, Escape, Decoded, Trim, Collapse, BlanksOnly;
    EscapeHasNoTag(text);
    TagFreeIsShown(Escape(text));
    CollapseEscaped(text, false);
    DecodeUndoesEscape(Collapse(text, false));
    CollapsedEdges(text);
    TrimNothing(Collapse(text, false));
  }

  lemma CollapsedEdges(text: string)
    requires BlanksOnly(text) && (text != "" ==> !Space(text[0]) && !Space(text[|text| - 1]))
    ensures var c := Collapse(text, false); c != "" ==> !Space(c[0]) && !Space(c[|c| - 1])
  {
    if text != "" {
      assert text[0] in text;
      CollapseKeepsEdges(text, false);
      CollapsedBlanks(text, false);
      NoTabs(Collapse(text, false));
      assert Collapse(text, false)[0] == text[0];
    }
  }

  lemma NoTabs(s: string)
    requires BlanksOnly(s) || s == ""
    ensures '\t' !in s
  {
  }

  /** The output for text without tags is converted to itself exactly when the text it shows has no
      two adjacent blanks; those can only come from entities, since runs of white space collapse. */
  lemma TagFreeOutputIsAFixpointIff(html: string)
    requires '<' !in html
    ensures HtmlToPango(HtmlToPango(html)) == HtmlToPango(html) <==> SingleSpaced(Shown(html))
  {
    hide HtmlToPango, Escape, Decoded, Collapse, TrimStart, TrimEnd, SingleSpaced, BlanksOnly;
    TagFreeIsShown(html);
    var text := Shown(html);
    TrimmedEdges(Decoded(Collapse(html, false)));
    ShownAgain(text);
    CollapseIsIdentityIff(text, false);
    if Escape(Collapse(text, false)) == Escape(text) { EscapeIsInjective(Collapse(text, false), text); }
  }

  lemma EncodedBlank(rest: string)
    ensures DecodeEntity("&#32;" + rest) == Some((' ', 5)) && ("&#32;" + rest)[5..] == rest
  {
    var s := "&#32;" + rest;
    SemicolonAt(s, 4);
    assert s[2..4] == "32";
    assert StartsWith(s, "&#");
    StartIndex(s, "&#x", 2);
    StartIndex(s, "&#X", 2);
    ThirtyTwo();
  }

  lemma ThirtyTwo()
    ensures Numbered(ParseU32("32", 10)) == Some(' ')
  {
    assert "32"[1..] == "2" && "2"[1..] == "";
    assert ParseDigits("2", 10, 3) == Some(32);
  }

  lemma {:induction false} NoEntities(s: string)
    requires '&' !in s
    ensures Decoded(s) == s
  {
    if s != "" { NoEntities(s[1..]); }
  }

  lemma EncodedBlanksDecode()
    ensures Decoded("a&#32;&#32;b") == "a  b"
  {
    hide Decoded, DecodeEntity;
    var one, two := "&#32;" + "b", "&#32;" + ("&#32;" + "b");
    EncodedBlank("b");
    EncodedBlank(one);
    NoEntities("b");
    DecodedEntity(one, ' ', 5);
    DecodedEntity(two, ' ', 5);
    DecodedCharacter("a" + two);
    assert ("a" + two)[1..] == two && "a" + two == "a&#32;&#32;b";
    assert [' '] + "b" == " b" && [' '] + " b" == "  b" && ['a'] + "  b" == "a  b";
  }

  lemma EncodedBlanksAreShown()
    ensures Shown("a&#32;&#32;b") == "a  b" && Shown("a  b") == "a b"
  {
    hide Decoded, Collapse, TrimStart, TrimEnd;
    CollapseIsIdentityIff("a&#32;&#32;b", false);
    EncodedBlanksDecode();
    TwoBlanks();
    NoEntities("a b");
    TrimNothing("a  b");
    TrimNothing("a b");
  }

  /** The other inputs: two encoded blanks are shown, but do not survive a second conversion. */
  lemma EncodedBlanksAreNotAFixpoint()
    ensures HtmlToPango("a&#32;&#32;b") == "a  b" && HtmlToPango("a  b") == "a b"
  {
    hide HtmlToPango, Shown, Escape;
    TagFreeIsShown("a&#32;&#32;b");
    TagFreeIsShown("a  b");
    EncodedBlanksAreShown();
    NoEscapes("a  b");
    NoEscapes("a b");
  }

  lemma TwoBlanks()
    ensures Collapse("a  b", false) == "a b"
  {
    assert "a  b"[1..] == "  b" && "  b"[1..] == " b" && " b"[1..] == "b" && "b"[1..] == "";
    assert Collapse("b", true) == "b";
    assert Collapse(" b", true) == "b";
    assert Collapse("  b", false) == " b";
  }

  lemma {:induction false} NoEscapes(s: string)
    requires '&' !in s && '<' !in s && '>' !in s
    ensures Escape(s) == s
  {
    if s != "" { NoEscapes(s[1..]); }
  }
}
