/** What the extractor gets to see: a C lexer run over the rewritten source finds exactly the strings
    that the rewriter read, spelled the same way, unless an escape names a character that means
    something inside a C string. Whether these are the strings of Rust is the matter of
    `XgettextRust`. */
module XgettextStrings {
  import opened Prelude
  import opened Xgettext

  /** One character of a string as it is spelled: itself, or behind a backslash. */
  datatype Unit = Plain(c: char) | Escaped(c: char)

  // ---------------------------------------------------------------- the strings the rewriter reads

  /** How one character, or one escape, of an ordinary string is to be spelled. A newline is `\n`, a
      continuation nothing, and a code point the character it names. */
  function PieceUnits(src: string, j: nat, host: Host): seq<Unit>
    requires j < |src|
  {
    if src[j] == '\n' then [Escaped('n')]
    else if src[j] != '\\' || j + 1 == |src| then [Plain(src[j])]
    else if src[j + 1] == '\n' then []
    else if At(src, j, "\\u{") then
      var c := host.codePoint(src[j + 3..Find(src, "}", j + 3)]);
      if c.Some? then [Plain(c.value)] else []
    else [Escaped(src[j + 1])]
  }

  function StringUnits(src: string, j: nat, host: Host): seq<Unit>
    decreases |src| - j
  {
    if j >= |src| || src[j] == '"' || StringPiece(src, j, host).Err? then []
    else PieceUnits(src, j, host) + StringUnits(src, StringPiece(src, j, host).value.next, host)
  }

  /** The string the rewriter reads at `i`, if it takes one to be there: a raw one is never a message and stands as an empty one. */
  function StringAt(src: string, i: nat, host: Host): seq<seq<Unit>>
    requires i < |src|
  {
    if At(src, i, "//") || At(src, i, "/*") then []
    else if RawQuote(src, i, host).Some? then [[]]
    else if src[i] == '"' then [StringUnits(src, i + 1, host)]
    else []
  }

  function Strings(src: string, i: nat, host: Host): seq<seq<Unit>>
    decreases |src| - i
  {
    if i >= |src| then []
    else if src[i] == '\n' then Strings(src, i + 1, host)
    else if Construct(src, i, host).Err? then []
    else StringAt(src, i, host) + Strings(src, Construct(src, i, host).value.next, host)
  }

  // ---------------------------------------------------------------- the strings a C lexer finds

  predicate Starts(t: string, pattern: string) { |pattern| <= |t| && t[..|pattern|] == pattern }

  /** The rest after a line comment, which a backslash at the end of a line carries on. */
  function AfterLine(t: string): (r: string)
    ensures |r| <= |t|
  {
    if t == "" || t[0] == '\n' then t
    else if Starts(t, "\\\n") then AfterLine(t[2..])
    else AfterLine(t[1..])
  }

  function AfterComment(t: string): (r: string)
    ensures |r| <= |t|
  {
    if t == "" then "" else if Starts(t, "*/") then t[2..] else AfterComment(t[1..])
  }

  /** A string, or a character constant, up to its closing quote: what it spells, and the rest. It ends
      at a newline, too, unless a backslash joins the lines. */
  function Quoted(t: string, quote: char): (r: (seq<Unit>, string))
    ensures |r.1| <= |t|
  {
    if t == "" || t == "\\" then ([], "")
    else if t[0] == quote then ([], t[1..])
    else if t[0] == '\n' then ([], t)
    else if t[0] == '\\' then
      var (units, rest) := Quoted(t[2..], quote);
      (if t[1] == '\n' then units else [Escaped(t[1])] + units, rest)
    else
      var (units, rest) := Quoted(t[1..], quote);
      ([Plain(t[0])] + units, rest)
  }

  function CStrings(t: string): seq<seq<Unit>>
    decreases |t|
  {
    if t == "" then []
    else if Starts(t, "//") then CStrings(AfterLine(t[2..]))
    else if Starts(t, "/*") then CStrings(AfterComment(t[2..]))
    else if t[0] == '"' then
      var (units, rest) := Quoted(t[1..], '"');
      [units] + CStrings(rest)
    else if t[0] == '\'' then CStrings(Quoted(t[1..], '\'').1)
    else CStrings(t[1..])
  }

  // ---------------------------------------------------------------- what the source must avoid

  /** A bare quote, backslash or newline: no C string spells one. */
  predicate Unspellable(u: Unit) { u.Plain? && (u.c == '"' || u.c == '\\' || u.c == '\n') }

  /** A piece that is such a character: an escape that names one, or a backslash that ends the source. */
  predicate Delimits(src: string, j: nat, host: Host)
    requires j < |src|
  {
    src[j] == '\\'
    && (j + 1 == |src|
        || (At(src, j, "\\u{")
            && var c := host.codePoint(src[j + 3..Find(src, "}", j + 3)]);
               c.Some? && (c.value == '"' || c.value == '\\' || c.value == '\n')))
  }

  predicate StringSpellable(src: string, j: nat, host: Host)
    decreases |src| - j
  {
    j >= |src| || src[j] == '"' || StringPiece(src, j, host).Err?
    || (!Delimits(src, j, host) && StringSpellable(src, StringPiece(src, j, host).value.next, host))
  }

  /** No escape in any string names a quote, a backslash or a newline, and the source does not end in a
      string right after a backslash. */
  predicate Spellable(src: string, i: nat, host: Host)
    decreases |src| - i
  {
    if i >= |src| then true
    else if src[i] == '\n' then Spellable(src, i + 1, host)
    else if Construct(src, i, host).Err? then true
    else
      (src[i] == '"' ==> StringSpellable(src, i + 1, host))
      && Spellable(src, Construct(src, i, host).value.next, host)
  }

  /** No slash has a label right behind it, whose apostrophe is dropped; in Rust none has. */
  predicate SlashesStand(src: string, i: nat, host: Host)
    decreases |src| - i
  {
    if i >= |src| then true
    else if src[i] == '\n' then SlashesStand(src, i + 1, host)
    else if Construct(src, i, host).Err? then true
    else
      (src[i] == '/' && Construct(src, i, host).value.next == i + 1 && i + 1 < |src| && src[i + 1] == '\'' ==>
         Apostrophe(src, i + 1).text != "")
      && SlashesStand(src, Construct(src, i, host).value.next, host)
  }

  // ---------------------------------------------------------------- the output, from a position on

  function OutputFrom(src: string, i: nat, pending: nat, host: Host): string
    decreases |src| - i
  {
    if i >= |src| then Repeat(pending)
    else if src[i] == '\n' then "\n" + (Repeat(pending) + OutputFrom(src, i + 1, 0, host))
    else
      match Construct(src, i, host)
      case Err(_) => ""
      case Ok(scan) => scan.text + OutputFrom(src, scan.next, pending + scan.held, host)
  }

  lemma {:induction false} PassWrites(src: string, p: Progress, host: Host)
    requires PassTo(src, p, |src|, host).Ok?
    ensures var q := PassTo(src, p, |src|, host).value; q.text + Repeat(q.pending) == p.text + OutputFrom(src, p.at, p.pending, host)
    ensures Readable(src, p.at, host)
    decreases |src| - p.at
  {
    hide Construct, Repeat;
    if p.at < |src| {
      var q := Advance(src, p, host).value;
      PassWrites(src, q, host);
      if src[p.at] == '\n' {
        Regroup(p.text, "\n", Repeat(p.pending));
        Regroup(p.text, "\n" + Repeat(p.pending), OutputFrom(src, q.at, 0, host));
        Regroup("\n", Repeat(p.pending), OutputFrom(src, q.at, 0, host));
      } else {
        Regroup(p.text, Construct(src, p.at, host).value.text, OutputFrom(src, q.at, q.pending, host));
      }
    }
  }

  /** Every construct from `i` on can be read. */
  predicate Readable(src: string, i: nat, host: Host)
    decreases |src| - i
  {
    if i >= |src| then true
    else if src[i] == '\n' then Readable(src, i + 1, host)
    else Construct(src, i, host).Ok? && Readable(src, Construct(src, i, host).value.next, host)
  }

  // ---------------------------------------------------------------- construct by construct

  lemma StartsIs(t: string, pattern: string, k: nat)
    requires k < |pattern|
    ensures Starts(t, pattern) ==> k < |t| && t[k] == pattern[k]
  {
    if Starts(t, pattern) { assert t[..|pattern|][k] == t[k]; }
  }

  /** A character that starts nothing is passed over. */
  lemma PassedOver(c: char, t: string)
    requires c != '"' && c != '\'' && (c == '/' ==> t == "" || (t[0] != '/' && t[0] != '*'))
    ensures CStrings([c] + t) == CStrings(t)
  {
    var all := [c] + t;
    StartsIs(all, "//", 0);
    StartsIs(all, "//", 1);
    StartsIs(all, "/*", 0);
    StartsIs(all, "/*", 1);
    assert all[1..] == t;
  }

  lemma {:induction false} NewlinesPassedOver(count: nat, t: string)
    ensures CStrings(Repeat(count) + t) == CStrings(t)
  {
    if count == 0 {
      assert Repeat(0) + t == t;
    } else {
      assert Repeat(count) + t == "\n" + (Repeat(count - 1) + t);
      PassedOver('\n', Repeat(count - 1) + t);
      NewlinesPassedOver(count - 1, t);
    }
  }

  lemma {:induction false} LineRead(a: string, t: string)
    requires '\n' !in a && (a != "" ==> a[|a| - 1] != '\\') && (t == "" || t[0] == '\n')
    ensures AfterLine(a + t) == t
  {
    if a == "" {
      assert a + t == t;
    } else {
      var all := a + t;
      assert all[0] == a[0] && a[0] in a;
      StartsIs(all, "\\\n", 0);
      StartsIs(all, "\\\n", 1);
      if |a| > 1 { assert all[1] == a[1] && a[1] in a; }
      assert all[1..] == a[1..] + t;
      LineRead(a[1..], t);
    }
  }

  lemma LineCommentRead(src: string, i: nat, t: string)
    requires At(src, i, "//") && (t == "" || t[0] == '\n')
    ensures CStrings(LineComment(src, i).text + t) == CStrings(t)
  {
    hide Find;
    var end := LineComment(src, i).next;
    var a := src[i + 2..end] + (if src[end - 1] == '\\' then " " else "");
    FindStops(src, '\n', i + 2);
    assert src[i..end] == "//" + src[i + 2..end] by { assert src[i..i + 2] == "//"; }
    assert LineComment(src, i).text + t == "//" + (a + t);
    assert ("//" + (a + t))[2..] == a + t && ("//" + (a + t))[..2] == "//";
    if src[end - 1] != '\\' && a != "" { assert a == src[i + 2..end] && a[|a| - 1] == src[end - 1]; }
    LineRead(a, t);
  }

  /** What follows a line comment is the end of the line. */
  lemma AfterLineComment(src: string, i: nat, pending: nat, host: Host)
    requires At(src, i, "//")
    ensures var o := OutputFrom(src, LineComment(src, i).next, pending, host); o == "" || o[0] == '\n'
  {
    var end := Find(src, "\n", i + 2);
    if end < |src| { assert src[end..end + 1] == "\n" && src[end] == src[end..end + 1][0]; } else if pending > 0 { assert Repeat(pending)[0] == '\n'; }
  }

  lemma FirstOfComment(src: string, j: nat, depth: nat, t: string)
    requires j <= |src| && !(j < |src| && src[j] == '/')
    ensures var text := BlockComment(src, j, depth).text + ("*/" + t); text[0] != '/'
  {
    hide Before;
    BlockText(src, j, depth);
    var text := BlockComment(src, j, depth).text;
    if text == "" { assert (text + ("*/" + t))[0] == '*'; }
  }

  lemma BlockText(src: string, j: nat, depth: nat)
    requires j <= |src|
    ensures var text := BlockComment(src, j, depth).text; text == "" || text[0] == ' ' || (j < |src| && text[0] == src[j])
  {
    if depth == 1 && At(src, j, "*/") { assert BlockComment(src, j + 2, 0).text == "" && "" + "" == ""; }
  }

  lemma {:induction false} BlockRead(src: string, j: nat, depth: nat, t: string)
    requires j <= |src|
    ensures AfterComment(BlockComment(src, j, depth).text + ("*/" + t)) == t
    decreases |src| - j
  {
    hide BlockComment, AfterComment, At;
    var end := "*/" + t;
    if depth == 0 || j == |src| {
      BlockEnds(src, j, depth);
      assert "" + end == end;
      CommentEnds(t);
    } else {
      BlockTurn(src, j, depth);
      if At(src, j, "/*") {
        AtInside(src, j, "/*");
        BlanksRead(BlockComment(src, j + 2, depth + 1).text, end);
        BlockRead(src, j + 2, depth + 1, t);
      } else if At(src, j, "*/") {
        AtInside(src, j, "*/");
        var rest := BlockComment(src, j + 2, depth - 1).text;
        BlanksRead(rest, end);
        assert "" + rest == rest;
        BlockRead(src, j + 2, depth - 1, t);
      } else {
        CopiedRead(src, j, depth, t);
        BlockRead(src, j + 1, depth, t);
      }
    }
  }

  lemma CopiedRead(src: string, j: nat, depth: nat, t: string)
    requires j < |src| && !At(src, j, "*/")
    ensures AfterComment(([src[j]] + BlockComment(src, j + 1, depth).text) + ("*/" + t)) == AfterComment(BlockComment(src, j + 1, depth).text + ("*/" + t))
  {
    hide BlockComment, AfterComment;
    var rest := BlockComment(src, j + 1, depth).text;
    if src[j] == '*' {
      NoEndHere(src, j);
      FirstOfComment(src, j + 1, depth, t);
    }
    Regroup([src[j]], rest, "*/" + t);
    CharacterRead(src[j], rest + ("*/" + t));
  }

  lemma NoEndHere(src: string, j: nat)
    requires j < |src| && src[j] == '*' && !At(src, j, "*/")
    ensures !(j + 1 < |src| && src[j + 1] == '/')
  {
    if j + 1 < |src| { assert src[j..j + 2] == [src[j], src[j + 1]]; }
  }

  lemma CommentEnds(t: string)
    ensures AfterComment("*/" + t) == t
  {
    assert ("*/" + t)[..2] == "*/" && ("*/" + t)[2..] == t;
  }

  lemma CharacterRead(c: char, t: string)
    requires c == '*' ==> t == "" || t[0] != '/'
    ensures AfterComment([c] + t) == AfterComment(t)
  {
    StartsIs([c] + t, "*/", 0);
    StartsIs([c] + t, "*/", 1);
    assert ([c] + t)[1..] == t;
  }

  lemma BlanksRead(text: string, end: string)
    ensures AfterComment(("  " + text) + end) == AfterComment(text + end)
  {
    hide AfterComment;
    assert ("  " + text) + end == [' '] + ([' '] + (text + end));
    CharacterRead(' ', [' '] + (text + end));
    CharacterRead(' ', text + end);
  }

  lemma BlockTurn(src: string, j: nat, depth: nat)
    requires j < |src| && depth > 0
    ensures BlockComment(src, j, depth).text ==
            if At(src, j, "/*") then "  " + BlockComment(src, j + 2, depth + 1).text
            else if At(src, j, "*/") then (if depth == 1 then "" else "  ") + BlockComment(src, j + 2, depth - 1).text
            else [src[j]] + BlockComment(src, j + 1, depth).text
  {
  }

  lemma BlockCommentRead(src: string, i: nat, t: string)
    requires At(src, i, "/*")
    ensures CStrings(("/*" + BlockComment(src, i + 2, 1).text + "*/") + t) == CStrings(t)
  {
    hide BlockComment, AfterComment;
    var body := BlockComment(src, i + 2, 1).text;
    var all := ("/*" + body + "*/") + t;
    assert all == "/*" + (body + ("*/" + t));
    assert all[..2] == "/*" && all[2..] == body + ("*/" + t);
    StartsIs(all, "//", 1);
    BlockRead(src, i + 2, 1, t);
  }

  // ---------------------------------------------------------------- strings

  lemma UnitRead(u: Unit, t: string)
    requires !Unspellable(u) && (u.Escaped? ==> u.c != '\n')
    ensures var (units, rest) := Quoted(t, '"');
            Quoted((if u.Plain? then [u.c] else ['\\', u.c]) + t, '"') == ([u] + units, rest)
  {
    var all := (if u.Plain? then [u.c] else ['\\', u.c]) + t;
    if u.Plain? {
      assert all[0] == u.c && all[1..] == t;
      assert all != "\\" by { assert u.c != '\\'; }
    } else {
      assert all[0] == '\\' && all[1] == u.c && all[2..] == t && |all| >= 2;
    }
  }

  function Spelling(units: seq<Unit>): string {
    if units == [] then ""
    else (if units[0].Plain? then [units[0].c] else ['\\', units[0].c]) + Spelling(units[1..])
  }

  /** A piece is written the way its unit is spelled. */
  lemma PieceSpelled(src: string, j: nat, host: Host)
    requires j < |src| && src[j] != '"' && StringPiece(src, j, host).Ok?
    ensures StringPiece(src, j, host).value.text == Spelling(PieceUnits(src, j, host)) && |PieceUnits(src, j, host)| <= 1
    ensures !Delimits(src, j, host) ==> forall u | u in PieceUnits(src, j, host) :: !Unspellable(u) && (u.Escaped? ==> u.c != '\n')
    ensures Delimits(src, j, host) ==> exists u :: u in PieceUnits(src, j, host) && Unspellable(u)
  {
    hide Find, SkipBlank;
    var units := PieceUnits(src, j, host);
    if units != [] { assert units[1..] == [] && Spelling(units[1..]) == ""; assert units[0] in units; }
    if At(src, j, "\\u{") { assert src[j..j + 3][1] == src[j + 1]; }
  }

  lemma {:induction false} StringSpelled(src: string, j: nat, host: Host)
    requires StringBody(src, j, host).Ok?
    ensures StringBody(src, j, host).value.text == Spelling(StringUnits(src, j, host))
    ensures StringSpellable(src, j, host) ==> forall u | u in StringUnits(src, j, host) :: !Unspellable(u) && (u.Escaped? ==> u.c != '\n')
    ensures !StringSpellable(src, j, host) ==> exists u :: u in StringUnits(src, j, host) && Unspellable(u)
    decreases |src| - j
  {
    hide StringPiece, Delimits, PieceUnits, Unspellable;
    if j < |src| && src[j] != '"' {
      var next := StringPiece(src, j, host).value.next;
      PieceSpelled(src, j, host);
      StringSpelled(src, next, host);
      SpelledTogether(PieceUnits(src, j, host), StringUnits(src, next, host));
      if Delimits(src, j, host) {
        var u :| u in PieceUnits(src, j, host) && Unspellable(u);
        assert u in StringUnits(src, j, host);
      } else if !StringSpellable(src, next, host) {
        var u :| u in StringUnits(src, next, host) && Unspellable(u);
        assert u in StringUnits(src, j, host);
      }
    }
  }

  lemma SpelledTogether(a: seq<Unit>, b: seq<Unit>)
    requires |a| <= 1
    ensures Spelling(a + b) == Spelling(a) + Spelling(b)
  {
    if a == [] {
      assert a + b == b;
    } else {
      assert (a + b)[1..] == b && a[1..] == [];
    }
  }

  lemma {:induction false} SpellingRead(units: seq<Unit>, t: string)
    requires forall u | u in units :: !Unspellable(u) && (u.Escaped? ==> u.c != '\n')
    ensures Quoted(Spelling(units) + ("\"" + t), '"') == (units, t)
    decreases |units|
  {
    hide Quoted;
    var end := "\"" + t;
    if units == [] {
      assert Spelling(units) + end == end;
      ClosingRead(t);
    } else {
      var u := units[0];
      assert u in units;
      SpellingRead(units[1..], t);
      UnitRead(u, Spelling(units[1..]) + end);
      Regroup(if u.Plain? then [u.c] else ['\\', u.c], Spelling(units[1..]), end);
      assert [u] + units[1..] == units;
    }
  }

  lemma ClosingRead(t: string)
    ensures Quoted("\"" + t, '"') == ([], t)
  {
    assert ("\"" + t)[0] == '"' && ("\"" + t)[1..] == t;
    assert "\"" + t != "\\" by { assert ("\"" + t)[0] != '\\'; }
  }

  lemma StringRead(src: string, i: nat, t: string, host: Host)
    requires StringBody(src, i, host).Ok? && StringSpellable(src, i, host)
    ensures CStrings((['"'] + StringBody(src, i, host).value.text + ['"']) + t) == [StringUnits(src, i, host)] + CStrings(t)
  {
    hide StringBody, Quoted, StringUnits, StringSpellable;
    StringSpelled(src, i, host);
    var text := StringBody(src, i, host).value.text;
    SpellingRead(StringUnits(src, i, host), t);
    QuoteOpens(text + ("\"" + t));
    assert (['"'] + text + ['"']) + t == "\"" + (text + ("\"" + t));
  }

  lemma QuoteOpens(t: string)
    ensures CStrings("\"" + t) == [Quoted(t, '"').0] + CStrings(Quoted(t, '"').1)
  {
    var all := "\"" + t;
    StartsIs(all, "//", 0);
    StartsIs(all, "/*", 0);
    assert all[0] == '"' && all[1..] == t;
  }

  lemma EmptyRead(t: string)
    ensures CStrings("\"\"" + t) == [[]] + CStrings(t)
  {
    hide CStrings;
    assert "\"\"" + t == "\"" + ("\"" + t);
    QuoteOpens("\"" + t);
    ClosingRead(t);
  }

  // ---------------------------------------------------------------- the whole output

  /** What follows a slash that is copied opens no comment. */
  lemma AfterSlash(src: string, i: nat, pending: nat, host: Host)
    requires i < |src| && src[i] == '/' && !At(src, i, "//") && !At(src, i, "/*") && Readable(src, i + 1, host)
    requires i + 1 < |src| && src[i + 1] == '\'' ==> Apostrophe(src, i + 1).text != ""
    ensures var o := OutputFrom(src, i + 1, pending, host); o == "" || (o[0] != '/' && o[0] != '*')
  {
    hide Find, Readable;
    var k := i + 1;
    if k >= |src| {
      if pending > 0 { assert Repeat(pending)[0] == '\n'; }
    } else if src[k] != '\n' {
      NoCommentHere(src, i);
      AtFirst(src, k, "//");
      AtFirst(src, k, "/*");
      assert Readable(src, k, host) && Construct(src, k, host).Ok? by { ReadableTurn(src, k, host); }
      FirstWritten(src, k, host);
      var scan := Construct(src, k, host).value;
      assert OutputFrom(src, k, pending, host)[0] == scan.text[0];
    }
  }

  lemma ReadableTurn(src: string, i: nat, host: Host)
    requires Readable(src, i, host) && i < |src| && src[i] != '\n'
    ensures Construct(src, i, host).Ok? && Readable(src, Construct(src, i, host).value.next, host)
  {
  }

  lemma NoCommentHere(src: string, i: nat)
    requires i + 1 < |src| && src[i] == '/' && !At(src, i, "//") && !At(src, i, "/*")
    ensures src[i + 1] != '/' && src[i + 1] != '*'
  {
    assert src[i..i + 2] == [src[i], src[i + 1]];
  }

  lemma FirstWritten(src: string, k: nat, host: Host)
    requires k < |src| && src[k] != '/' && src[k] != '*' && Construct(src, k, host).Ok?
    requires src[k] == '\'' ==> Apostrophe(src, k).text != ""
    ensures var text := Construct(src, k, host).value.text; text != "" && text[0] != '/' && text[0] != '*'
  {
    hide Find, StringBody, BlockComment, LineComment;
    AtFirst(src, k, "//");
    AtFirst(src, k, "/*");
    if src[k] == '\'' { QuoteIsApostrophe(src, k, host); }
  }

  lemma ConstructRead(src: string, i: nat, pending: nat, host: Host)
    requires i < |src| && src[i] != '\n' && Readable(src, i, host) && Spellable(src, i, host) && SlashesStand(src, i, host)
    ensures Construct(src, i, host).Ok?
    ensures var scan := Construct(src, i, host).value;
            var o := OutputFrom(src, scan.next, pending, host);
            CStrings(scan.text + o) == StringAt(src, i, host) + CStrings(o)
  {
    hide CStrings, StringBody, BlockComment, StringUnits, StringSpellable, RawQuote, OutputFrom, Repeat, Find, LineComment, Apostrophe;
    ReadableTurn(src, i, host);
    var scan := Construct(src, i, host).value;
    var o := OutputFrom(src, scan.next, pending, host);
    assert [] + CStrings(o) == CStrings(o);
    if At(src, i, "//") {
      AfterLineComment(src, i, pending, host);
      LineCommentRead(src, i, o);
    } else if At(src, i, "/*") {
      BlockCommentRead(src, i, o);
    } else if RawQuote(src, i, host).Some? {
      EmptyRead(o);
    } else if src[i] == '"' {
      StringRead(src, i + 1, o, host);
    } else if src[i] == '\'' {
      QuoteIsApostrophe(src, i, host);
      ApostropheRead(src, i, o);
    } else {
      if src[i] == '/' { AfterSlash(src, i, pending, host); }
      PassedOver(src[i], o);
    }
  }

  lemma ApostropheRead(src: string, i: nat, t: string)
    requires i < |src|
    ensures CStrings(Apostrophe(src, i).text + t) == CStrings(t)
  {
    hide Find, CStrings;
    PassedOver('0', t);
    assert "" + t == t && "0" + t == ['0'] + t;
  }

  lemma {:induction false} OutputRead(src: string, i: nat, pending: nat, host: Host)
    requires Readable(src, i, host) && Spellable(src, i, host) && SlashesStand(src, i, host)
    ensures CStrings(OutputFrom(src, i, pending, host)) == Strings(src, i, host)
    decreases |src| - i
  {
    hide CStrings, Construct, StringAt, Repeat;
    if i >= |src| {
      NewlinesPassedOver(pending, "");
      assert Repeat(pending) + "" == Repeat(pending);
      assert CStrings("") == [] by { NothingFound(); }
    } else if src[i] == '\n' {
      var o := OutputFrom(src, i + 1, 0, host);
      PassedOver('\n', Repeat(pending) + o);
      NewlinesPassedOver(pending, o);
      OutputRead(src, i + 1, 0, host);
    } else {
      var scan := Construct(src, i, host).value;
      ConstructRead(src, i, pending + scan.held, host);
      OutputRead(src, scan.next, pending + scan.held, host);
    }
  }

  lemma NothingFound()
    ensures CStrings("") == []
  {
  }

  // ---------------------------------------------------------------- the converse

  lemma {:induction false} QuotedSpells(t: string, quote: char)
    requires quote == '"' || quote == '\''
    ensures quote == '"' ==> forall u | u in Quoted(t, quote).0 :: !Unspellable(u)
    decreases |t|
  {
    if t != "" && t != "\\" && t[0] != quote && t[0] != '\n' { QuotedSpells(if t[0] == '\\' then t[2..] else t[1..], quote); }
  }

  lemma {:induction false} FoundSpells(t: string)
    ensures forall units | units in CStrings(t) :: forall u | u in units :: !Unspellable(u)
    decreases |t|
  {
    hide Unspellable, Quoted, AfterLine, AfterComment, Starts;
    if t == "" {
    } else if Starts(t, "//") {
      StartsIs(t, "//", 1);
      FoundSpells(AfterLine(t[2..]));
    } else if Starts(t, "/*") {
      StartsIs(t, "/*", 1);
      FoundSpells(AfterComment(t[2..]));
    } else if t[0] == '"' {
      QuotedSpells(t[1..], '"');
      FoundSpells(Quoted(t[1..], '"').1);
    } else if t[0] == '\'' {
      FoundSpells(Quoted(t[1..], '\'').1);
    } else {
      FoundSpells(t[1..]);
    }
  }

  ghost predicate SomeUnspellable(strings: seq<seq<Unit>>) { exists units | units in strings :: exists u | u in units :: Unspellable(u) }

  lemma {:induction false} UnspellableString(src: string, i: nat, host: Host)
    requires Readable(src, i, host) && !Spellable(src, i, host)
    ensures SomeUnspellable(Strings(src, i, host))
    decreases |src| - i
  {
    hide Construct, StringUnits, Unspellable, StringSpellable, StringAt;
    if src[i] == '\n' {
      UnspellableString(src, i + 1, host);
      assert Strings(src, i, host) == Strings(src, i + 1, host);
    } else if src[i] == '"' && !StringSpellable(src, i + 1, host) {
      StringFound(src, i, host);
      var units := StringUnits(src, i + 1, host);
      assert units in StringAt(src, i, host);
      assert units in Strings(src, i, host);
    } else {
      var next := Construct(src, i, host).value.next;
      UnspellableString(src, next, host);
      var units :| units in Strings(src, next, host) && exists u | u in units :: Unspellable(u);
      assert units in Strings(src, i, host);
    }
  }

  lemma StringFound(src: string, i: nat, host: Host)
    requires i < |src| && src[i] == '"' && Construct(src, i, host).Ok? && !StringSpellable(src, i + 1, host)
    ensures StringAt(src, i, host) == [StringUnits(src, i + 1, host)]
    ensures exists u :: u in StringUnits(src, i + 1, host) && Unspellable(u)
  {
    hide StringUnits, Unspellable, StringSpellable, StringBody;
    AtFirst(src, i, "//");
    AtFirst(src, i, "/*");
    StringSpelled(src, i + 1, host);
  }

  /** A C lexer finds in the output exactly the strings the rewriter read, in order and spelled the same
      way, raw ones as empty, if and only if no escape in them names a quote, a backslash or a newline
      (and the source does not break off in a string behind a backslash). */
  lemma RewrittenStringsAreFoundIff(src: string, host: Host)
    requires Convert(src, host).Ok? && SlashesStand(src, 0, host)
    ensures CStrings(Convert(src, host).value.text) == Strings(src, 0, host) <==> Spellable(src, 0, host)
  {
    hide PassTo, CStrings, Strings, Spellable, SlashesStand, OutputFrom, Unspellable, Readable;
    PassWrites(src, START, host);
    assert "" + OutputFrom(src, 0, 0, host) == OutputFrom(src, 0, 0, host);
    if Spellable(src, 0, host) {
      OutputRead(src, 0, 0, host);
    } else {
      FoundSpells(Convert(src, host).value.text);
      UnspellableString(src, 0, host);
    }
  }

  const NAMED_QUOTE := "\"\\u{22}\""

  lemma NamedQuotePiece(host: Host)
    requires host.codePoint("22") == Some('"')
    ensures StringPiece(NAMED_QUOTE, 1, host) == Ok(Scan("\"", 7, 0, 0, 0)) && PieceUnits(NAMED_QUOTE, 1, host) == [Plain('"')]
  {
    hide Newlines, Find;
    NoNewlines(NAMED_QUOTE[1..7]);
    assert NAMED_QUOTE[1..4] == "\\u{" && NAMED_QUOTE[4..6] == "22";
    FindIs(NAMED_QUOTE, '}', 4, 6);
  }

  lemma NamedQuoteRead(host: Host)
    requires host.codePoint("22") == Some('"')
    ensures Construct(NAMED_QUOTE, 0, host) == Ok(Scan("\"\"\"", 8, 0, 0, 0)) && StringUnits(NAMED_QUOTE, 1, host) == [Plain('"')]
  {
    hide StringPiece, PieceUnits;
    NamedQuotePiece(host);
    assert StringBody(NAMED_QUOTE, 7, host) == Ok(Scan("", 7, 0, 0, 0)) && StringUnits(NAMED_QUOTE, 7, host) == [];
    assert StringBody(NAMED_QUOTE, 1, host) == Ok(Scan("\"", 7, 0, 0, 0)) by { assert "\"" + "" == "\""; }
    assert ['"'] + "\"" + ['"'] == "\"\"\"";
    AtFirst(NAMED_QUOTE, 0, "//");
    AtFirst(NAMED_QUOTE, 0, "/*");
  }

  /** An escape that names a quote ends the string there: the extractor finds two empty strings in place
      of one that holds a quote. */
  lemma NamedQuoteIsLost(host: Host)
    requires host.codePoint("22") == Some('"')
    ensures Convert(NAMED_QUOTE, host) == Ok(Output("\"\"\"", 0, 0))
    ensures Strings(NAMED_QUOTE, 0, host) == [[Plain('"')]] && CStrings("\"\"\"") == [[], []]
  {
    hide Construct, StringUnits, CStrings, StringAt;
    NamedQuoteRead(host);
    WholeSource(NAMED_QUOTE, Scan("\"\"\"", 8, 0, 0, 0), host);
    assert StringAt(NAMED_QUOTE, 0, host) == [[Plain('"')]] by { NamedQuoteFound(host); }
    assert Strings(NAMED_QUOTE, 8, host) == [];
    EmptyRead("\"");
    assert "\"\"" + "\"" == "\"\"\"" && "\"" + "" == "\"";
    QuoteOpens("");
    assert Quoted("", '"') == ([], "");
    NothingFound();
  }

  lemma NamedQuoteFound(host: Host)
    requires StringUnits(NAMED_QUOTE, 1, host) == [Plain('"')]
    ensures StringAt(NAMED_QUOTE, 0, host) == [[Plain('"')]]
  {
    hide StringUnits;
    AtFirst(NAMED_QUOTE, 0, "//");
    AtFirst(NAMED_QUOTE, 0, "/*");
  }
}
