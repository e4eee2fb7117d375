/** Sources in which a C lexer does not find the strings of Rust in the rewritten source, one for each
    way in which the rewriter reads otherwise, and two in which it does by accident. */
module XgettextFailures {
  import opened Prelude
  import opened Xgettext
  import opened XgettextStrings
  import opened XgettextRust

  // ---------------------------------------------------------------- character literals

  lemma Copied(src: string, p: Progress, host: Host)
    requires p.at < |src| && src[p.at] !in "\"'\n" && RawQuote(src, p.at, host).None? && !At(src, p.at, "//") && !At(src, p.at, "/*")
    ensures Advance(src, p, host) == Ok(p.(text := p.text + [src[p.at]], at := p.at + 1))
  {
  }

  /** A C lexer finds the string that begins behind a stretch of code. */
  lemma {:induction false} FoundBehind(code: string, text: string)
    requires forall c | c in code :: c !in "\"'/"
    ensures CStrings(code + ("\"" + text)) == [Quoted(text, '"').0] + CStrings(Quoted(text, '"').1)
  {
    hide CStrings, Quoted;
    var rest := "\"" + text;
    if code == "" {
      assert code + rest == rest;
      QuoteOpens(text);
    } else {
      assert code + rest == [code[0]] + (code[1..] + rest);
      assert code[0] in code;
      PassedOver(code[0], code[1..] + rest);
      FoundBehind(code[1..], text);
    }
  }

  /** A character literal is no string, and nor is a sign. */
  lemma NoStringHere(src: string, i: nat, next: nat, host: Host)
    requires Sound(host) && i < |src| && !At(src, i, "//") && !At(src, i, "/*") && src[i] != '"' && !NameChar(src[i], host)
    requires next == if src[i] == '\'' && LiteralEnd(src, i).Some? then LiteralEnd(src, i).value else i + 1
    requires src[i] == '\'' && next == i + 1 < |src| ==> !NameChar(src[next], host)
    ensures RustStrings(src, i, host) == RustStrings(src, next, host)
  {
    hide LiteralEnd;
    assert [] + RustStrings(src, next, host) == RustStrings(src, next, host);
  }

  /** An escaped quote, a sign and a literal that ends the source. */
  lemma TwoLiterals(src: string, host: Host)
    requires Sound(host) && !host.isAlnum(',') && |src| == 8 && src[0] == '\'' && src[1] == '\\' && src[2] == '\'' && src[3] == '\'' && src[4] == ','
    requires src[5] == '\'' && src[6] != '\\' && src[6] != '\n' && src[7] == '\''
    ensures RustStrings(src, 0, host) == []
  {
    hide RustStrings, Find;
    FindHere(src, '\'', 3);
    forall i | i in {0, 4, 5} ensures !At(src, i, "//") && !At(src, i, "/*") {
      AtFirst(src, i, "//");
      AtFirst(src, i, "/*");
    }
    NotInName('\'', host);
    NoStringHere(src, 0, 4, host);
    NoStringHere(src, 4, 5, host);
    NoStringHere(src, 5, 8, host);
    assert RustStrings(src, 8, host) == [] by { NothingLeft(src, host); }
  }

  lemma NothingLeft(src: string, host: Host)
    ensures RustStrings(src, |src|, host) == []
  {
  }

  /** An escaped quote, a comma and a quoted double quote are no string, but the extractor finds one. */
  lemma MisreadStringIsFound(host: Host)
    requires Sound(host) && !host.isAlnum(',')
    ensures Convert(MISREAD, host) == Ok(Output("00\"'\"", 0, 0)) && RustStrings(MISREAD, 0, host) == [] && CStrings("00\"'\"") == [[Plain('\'')]]
  {
    hide Convert, CStrings, RustStrings, Quoted;
    EscapedQuoteIsMisread(host);
    TwoLiterals(MISREAD, host);
    FoundBehind("00", "'\"");
    assert "00" + ("\"" + "'\"") == "00\"'\"";
    QuotedOne('\'');
    assert ['\''] + "\"" == "'\"";
    NothingFound();
  }

  lemma QuotedOne(c: char)
    requires c != '"' && c != '\\' && c != '\n'
    ensures Quoted([c] + "\"", '"') == ([Plain(c)], "")
  {
    hide Quoted;
    ClosingRead("");
    UnitRead(Plain(c), "\"");
    assert "\"" + "" == "\"" && [Plain(c)] + [] == [Plain(c)];
  }

  const HARMLESS := "'\\'','a'"

  /** The same with a letter in place of the double quote: misread, too, but no string is found, so that
      staying in step is not a condition the extractor depends on. */
  lemma MisreadMayBeHarmless(host: Host)
    requires Sound(host) && !host.isAlnum(',')
    ensures Convert(HARMLESS, host) == Ok(Output("00a", 0, 0)) && !ReadAlike(HARMLESS, host)
    ensures RustStrings(HARMLESS, 0, host) == [] && CStrings("00a") == []
  {
    hide RustStrings, Advance, Find, LiteralEnd, RawOpens;
    assert HARMLESS[0..4] == "'\\''" && HARMLESS[0..3] == "'\\'";
    TwoLiterals(HARMLESS, host);
    EscapedQuoteIsReadIff(HARMLESS, START, host);
    assert "" + "0" == "0" && "0" + "0" == "00" && "00" + "a" == "00a" && "00a" + "" == "00a";
    var p, q, r := Progress("0", 3, 0, 0, 0), Progress("00", 6, 0, 0, 0), Progress("00a", 7, 0, 0, 0);
    assert Advance(HARMLESS, p, host) == Ok(q) by { HarmlessComma(host); }
    Copied(HARMLESS, q, host);
    ClosingQuote(HARMLESS, r, host);
    assert PassTo(HARMLESS, r.(at := 8), 8, host) == Ok(r.(at := 8));
    assert PassTo(HARMLESS, r, 8, host) == Ok(r.(at := 8));
    assert PassTo(HARMLESS, q, 8, host) == Ok(r.(at := 8));
    assert PassTo(HARMLESS, p, 8, host) == Ok(r.(at := 8));
    NothingInWord();
  }

  lemma HarmlessComma(host: Host)
    ensures Advance(HARMLESS, Progress("0", 3, 0, 0, 0), host) == Ok(Progress("00", 6, 0, 0, 0))
  {
    hide Find, Construct;
    QuoteIsApostrophe(HARMLESS, 3, host);
    assert "0" + "0" == "00";
  }

  lemma NothingInWord()
    ensures CStrings("00a") == []
  {
    hide CStrings;
    PassedOver('0', "0a");
    PassedOver('0', "a");
    PassedOver('a', "");
    assert ['0'] + "0a" == "00a" && ['0'] + "a" == "0a" && ['a'] + "" == "a";
    NothingFound();
  }

  // ---------------------------------------------------------------- raw strings with a prefix

  const RAW_LETTER := "br\"a\""
  const RAW_BACKSLASH := "br\"\\\""

  /** A source that is a raw byte string of one character. */
  lemma RawByteString(src: string, host: Host)
    requires Sound(host) && |src| == 5 && src[0] == 'b' && src[1] == 'r' && src[2] == '"' && src[3] != '"' && src[4] == '"'
    ensures RawOpens(src, 0, host) == Some(2) && RawCloses(src, 0, host) == 4 && RawHashes(src, 0, host) == 0
    ensures Prefixed(src, 0, host) && RustStrings(src, 0, host) == [[]]
  {
    NotInName('"', host);
    AtFirst(src, 0, "//");
    AtFirst(src, 0, "/*");
    assert src[0..2] == "br";
    assert ['"'] + seq(0, _ => '#') == ['"'];
    FindOn(src, '"', 3);
    FindHere(src, '"', 4);
    assert RustNext(src, 0, host) == 5;
    assert [[]] + RustStrings(src, 5, host) == [[]];
  }

  lemma BytePrefixCopied(src: string, host: Host)
    requires Sound(host) && |src| >= 2 && src[0] == 'b' && src[1] == 'r'
    ensures Advance(src, START, host) == Ok(Progress("b", 1, 0, 0, 0))
    ensures Advance(src, Progress("b", 1, 0, 0, 0), host) == Ok(Progress("br", 2, 0, 0, 0))
  {
    hide RawQuote;
    AtFirst(src, 0, "//");
    AtFirst(src, 0, "/*");
    AtFirst(src, 1, "//");
    AtFirst(src, 1, "/*");
    InsideWord(src, 1, host);
    assert RawQuote(src, 0, host).None? by { NotRaw(src, 0, host); }
    Copied(src, START, host);
    Copied(src, Progress("b", 1, 0, 0, 0), host);
    assert "" + "b" == "b" && "b" + "r" == "br";
  }

  lemma NotRaw(src: string, i: nat, host: Host)
    requires i < |src| && src[i] != 'r'
    ensures RawQuote(src, i, host).None?
  {
  }

  /** The whole of such a source is what its string becomes. */
  lemma ByteStringConverted(src: string, text: string, next: nat, host: Host)
    requires Sound(host) && |src| >= 3 && src[0] == 'b' && src[1] == 'r' && src[2] == '"'
    requires StringBody(src, 3, host) == Ok(Scan(text, next, 0, 0, 0)) && next + 1 >= |src|
    ensures Convert(src, host) == Ok(Output("br" + ("\"" + (text + "\"")), 0, 0))
  {
    hide Advance, StringBody;
    BytePrefixCopied(src, host);
    var p := Progress("br" + ("\"" + (text + "\"")), next + 1, 0, 0, 0);
    assert Advance(src, Progress("br", 2, 0, 0, 0), host) == Ok(p) by { StringTurn(src, Progress("br", 2, 0, 0, 0), text, next, host); }
    assert PassTo(src, p, |src|, host) == Ok(p);
    assert PassTo(src, Progress("br", 2, 0, 0, 0), |src|, host) == Ok(p);
    assert PassTo(src, Progress("b", 1, 0, 0, 0), |src|, host) == Ok(p);
    assert p.text + Repeat(0) == p.text;
  }

  lemma StringTurn(src: string, p: Progress, text: string, next: nat, host: Host)
    requires p.at < |src| && src[p.at] == '"' && StringBody(src, p.at + 1, host) == Ok(Scan(text, next, 0, 0, 0))
    ensures Advance(src, p, host) == Ok(p.(text := p.text + ("\"" + (text + "\"")), at := next + 1))
  {
    hide StringBody;
    AtFirst(src, p.at, "//");
    AtFirst(src, p.at, "/*");
    assert ['"'] + text + ['"'] == "\"" + (text + "\"");
  }

  /** A raw byte string of one letter stands unchanged where the documentation says it becomes an empty
      string: it is in step, but the extractor finds the letter. */
  lemma RawByteStringIsFound(host: Host)
    requires Sound(host)
    ensures Convert(RAW_LETTER, host) == Ok(Output(RAW_LETTER, 0, 0)) && RustStrings(RAW_LETTER, 0, host) == [[]] && CStrings(RAW_LETTER) == [[Plain('a')]]
  {
    hide Convert, CStrings, RustStrings, Quoted, RawOpens, StringBody;
    RawByteString(RAW_LETTER, host);
    VerbatimBody(RAW_LETTER, 3, 4, host);
    assert RAW_LETTER[3..4] == "a";
    ByteStringConverted(RAW_LETTER, "a", 4, host);
    assert "br" + ("\"" + ("a" + "\"")) == RAW_LETTER && ['a'] == "a";
    FoundBehind("br", "a\"");
    assert "a\"" == ['a'] + "\"";
    QuotedOne('a');
    NothingFound();
  }

  /** In a raw byte string of one backslash the rewriter takes the closing quote for an escaped one. */
  lemma RawBackslashEscapes(host: Host)
    requires Sound(host)
    ensures Convert(RAW_BACKSLASH, host) == Ok(Output("br\"\\\"\"", 0, 0))
    ensures RustStrings(RAW_BACKSLASH, 0, host) == [[]] && CStrings("br\"\\\"\"") == [[Escaped('"')]]
  {
    hide Convert, CStrings, RustStrings, Quoted, RawOpens;
    RawByteString(RAW_BACKSLASH, host);
    var text := "\\\"";
    assert StringBody(RAW_BACKSLASH, 3, host) == Ok(Scan(text, 5, 0, 0, 0)) by { BackslashBody(host); }
    ByteStringConverted(RAW_BACKSLASH, text, 5, host);
    assert "br" + ("\"" + (text + "\"")) == "br\"\\\"\"";
    FoundBehind("br", text + "\"");
    assert text + "\"" == ['\\', '"'] + "\"";
    UnitRead(Escaped('"'), "\"");
    ClosingRead("");
    assert "\"" + "" == "\"" && [Escaped('"')] + [] == [Escaped('"')];
    NothingFound();
  }

  lemma BackslashBody(host: Host)
    ensures StringBody(RAW_BACKSLASH, 3, host) == Ok(Scan("\\\"", 5, 0, 0, 0))
  {
    assert StringPiece(RAW_BACKSLASH, 3, host) == Ok(Scan("\\\"", 5, 0, 0, 0));
    assert "\\\"" + "" == "\\\"";
  }

  const RAW_COMMENT := "br#\"\"//\"#\"a\""

  lemma RawCommentIsRust(host: Host)
    requires Sound(host)
    ensures RustStrings(RAW_COMMENT, 0, host) == [[], [Plain('a')]] && !ReadAlike(RAW_COMMENT, host) && PrefixedAreEmpty(RAW_COMMENT, 0, host)
  {
    hide RustStrings, RustUnits, Prefixed, RawOpens, RustNext, RustString, Arrives, SeenBetween, Sound;
    var src := RAW_COMMENT;
    RawCommentOpens(host);
    RawCommentInside(host);
    LetterString(src, 9, host);
    FirstToken(src, host);
    assert [[]] + [[Plain('a')]] == [[], [Plain('a')]];
    RawCommentLost(host);
    assert PrefixedAreEmpty(src, 9, host) by { LetterIsNoRaw(src, 9, host); }
  }

  lemma RawCommentLost(host: Host)
    requires Sound(host)
    ensures !ReadAlike(RAW_COMMENT, host)
  {
    hide RustNext, RawOpens, SomeUnspellable, Seen, SeenBetween, LiteralEnd, Sound;
    var src := RAW_COMMENT;
    RawCommentOpens(host);
    RawCommentInside(host);
    assert !Arrives(src, 5, 9, host);
    assert !Arrives(src, 3, 9, host);
    OutOfStep(src, host);
  }

  lemma LetterIsNoRaw(src: string, i: nat, host: Host)
    requires Sound(host) && i + 3 == |src| && src[i] == '"' && src[i + 1] == 'a' && src[i + 2] == '"'
    ensures PrefixedAreEmpty(src, i, host)
  {
    AtFirst(src, i, "//");
    AtFirst(src, i, "/*");
    NotInName('"', host);
    assert StringEnd(src, i + 2) == i + 3 && StringEnd(src, i + 1) == i + 3;
    assert RustNext(src, i, host) == i + 3;
  }

  lemma FirstToken(src: string, host: Host)
    requires src != ""
    ensures RustStrings(src, 0, host) == RustString(src, 0, host) + RustStrings(src, RustNext(src, 0, host), host)
  {
  }

  lemma {:induction false} HashesTo(src: string, j: nat, k: nat)
    requires j <= k < |src| && src[k] != '#' && forall i | j <= i < k :: src[i] == '#'
    ensures Hashes(src, j) == k
    decreases k - j
  {
    if j < k { HashesTo(src, j + 1, k); }
  }

  /** A source that begins with a raw byte string. */
  lemma BytePrefix(src: string, quote: nat, host: Host)
    requires Sound(host) && 2 <= quote < |src| && src[0] == 'b' && src[1] == 'r' && src[quote] == '"' && forall j | 2 <= j < quote :: src[j] == '#'
    ensures RawOpens(src, 0, host) == Some(quote) && RawHashes(src, 0, host) == quote - 2 && Prefixed(src, 0, host)
    ensures RustNext(src, 0, host) == RawCloses(src, 0, host) + quote - 1 && RustString(src, 0, host) == [[]]
  {
    hide RawCloses, Find;
    NotInName('"', host);
    NotInName('#', host);
    AtFirst(src, 0, "//");
    AtFirst(src, 0, "/*");
    HashesTo(src, 2, quote);
    TwoLetters(src, host);
    assert src[0..2] == [src[0], src[1]];
  }

  lemma TwoLetters(src: string, host: Host)
    requires Sound(host) && |src| > 2 && src[0] == 'b' && src[1] == 'r' && !NameChar(src[2], host)
    ensures WordEnd(src, 0, host) == 2
  {
    assert WordEnd(src, 2, host) == 2;
    assert WordEnd(src, 1, host) == 2;
  }

  /** Two characters that are there, or not. */
  lemma PairAt(src: string, i: nat, a: char, b: char)
    ensures At(src, i, [a, b]) <==> i + 1 < |src| && src[i] == a && src[i + 1] == b
  {
    if i + 1 < |src| { assert src[i..i + 2] == [src[i], src[i + 1]]; }
  }

  lemma PairFound(src: string, a: char, b: char, i: nat, k: nat)
    requires i <= k && k + 1 < |src| && src[k] == a && src[k + 1] == b && forall j | i <= j < k :: src[j] != a || src[j + 1] != b
    ensures Find(src, [a, b], i) == k
    decreases k - i
  {
    PairAt(src, i, a, b);
    if i < k { PairFound(src, a, b, i + 1, k); }
  }

  lemma RawCommentOpens(host: Host)
    requires Sound(host)
    ensures var src := RAW_COMMENT;
            Prefixed(src, 0, host) && RawOpens(src, 0, host) == Some(3) && RustNext(src, 0, host) == 9 && RustString(src, 0, host) == [[]]
  {
    hide RustNext, RawOpens, Find, RustString, Prefixed, RawHashes;
    var src := RAW_COMMENT;
    assert src[2] == '#' && src[3] == '"' && src[4] == '"' && src[5] == '/' && src[6] == '/' && src[7] == '"' && src[8] == '#';
    BytePrefix(src, 3, host);
    assert ['"'] + seq(1, _ => '#') == ['"', '#'];
    PairFound(src, '"', '#', 4, 7);
  }

  lemma {:induction false} FindNone(src: string, c: char, i: nat)
    requires i <= |src| && c !in src[i..]
    ensures Find(src, [c], i) == |src|
    decreases |src| - i
  {
    if i < |src| {
      assert src[i..] == [src[i]] + src[i + 1..] && src[i..i + 1] == [src[i]];
      FindNone(src, c, i + 1);
    }
  }

  /** Seen as source, it is an empty string and a comment that hides its end. */
  lemma RawCommentInside(host: Host)
    requires Sound(host)
    ensures var src := RAW_COMMENT;
            SeenBetween(src, 3, 9, host) == [[]] && RustNext(src, 5, host) == 12 && RustNext(src, 3, host) == 5 && StringEnd(src, 4) == 5
  {
    var src := RAW_COMMENT;
    NotInName('"', host);
    NotInName('/', host);
    AtFirst(src, 3, "//");
    AtFirst(src, 3, "/*");
    assert src[5..7] == "//";
    FindNone(src, '\n', 7);
    assert StringEnd(src, 4) == 5 && RustNext(src, 3, host) == 5 && RustNext(src, 5, host) == 12;
    var empty: seq<seq<Unit>> := [[]];
    assert RustUnits(src, 4, host) == [] && Seen(src, 3, host) == empty && Seen(src, 5, host) == [];
    assert SeenBetween(src, 5, 9, host) == [] && empty + [] == empty;
  }

  lemma CommentAt(src: string, i: nat)
    requires i + 1 < |src| && src[i] == '/' && src[i + 1] == '/'
    ensures At(src, i, "//")
  {
    assert src[i..i + 2] == [src[i], src[i + 1]];
  }

  lemma RawCommentTurns(host: Host)
    requires Sound(host)
    ensures var src := RAW_COMMENT;
            && Advance(src, Progress("br", 2, 0, 0, 0), host) == Ok(Progress("br#", 3, 0, 0, 0))
            && Advance(src, Progress("br#", 3, 0, 0, 0), host) == Ok(Progress("br#\"\"", 5, 0, 0, 0))
            && Advance(src, Progress("br#\"\"", 5, 0, 0, 0), host) == Ok(Progress(src, 12, 0, 0, 0))
  {
    RawCommentHash(host);
    RawCommentString(host);
    RawCommentRest(host);
  }

  lemma RawCommentHash(host: Host)
    requires Sound(host)
    ensures Advance(RAW_COMMENT, Progress("br", 2, 0, 0, 0), host) == Ok(Progress("br#", 3, 0, 0, 0))
  {
    hide Advance;
    var src := RAW_COMMENT;
    assert src[2] == '#';
    AtFirst(src, 2, "//");
    AtFirst(src, 2, "/*");
    Copied(src, Progress("br", 2, 0, 0, 0), host);
    assert "br" + ['#'] == "br#";
  }

  lemma RawCommentString(host: Host)
    ensures Advance(RAW_COMMENT, Progress("br#", 3, 0, 0, 0), host) == Ok(Progress("br#\"\"", 5, 0, 0, 0))
  {
    hide Advance, StringBody;
    var src := RAW_COMMENT;
    assert src[3] == '"' && src[4] == '"';
    EmptyBody(src, 4, host);
    StringTurn(src, Progress("br#", 3, 0, 0, 0), "", 4, host);
    assert "br#" + ("\"" + ("" + "\"")) == "br#\"\"";
  }

  lemma RawCommentRest(host: Host)
    ensures Advance(RAW_COMMENT, Progress("br#\"\"", 5, 0, 0, 0), host) == Ok(Progress(RAW_COMMENT, 12, 0, 0, 0))
  {
    hide Advance;
    var src := RAW_COMMENT;
    assert src[5] == '/' && src[6] == '/' && |src| == 12;
    CommentAt(src, 5);
    assert src[7..] == "\"#\"a\"";
    LastComment(src, Progress("br#\"\"", 5, 0, 0, 0), host);
    assert src[..5] == "br#\"\"";
    assert src[..5] + src[5..] == src;
  }

  lemma RawCommentConverted(host: Host)
    requires Sound(host)
    ensures Convert(RAW_COMMENT, host) == Ok(Output(RAW_COMMENT, 0, 0))
  {
    hide Advance, Convert;
    var src := RAW_COMMENT;
    var end := Progress(src, |src|, 0, 0, 0);
    BytePrefixCopied(src, host);
    RawCommentTurns(host);
    Turn(src, Progress("br#\"\"", 5, 0, 0, 0), end, end, host);
    Turn(src, Progress("br#", 3, 0, 0, 0), Progress("br#\"\"", 5, 0, 0, 0), end, host);
    Turn(src, Progress("br", 2, 0, 0, 0), Progress("br#", 3, 0, 0, 0), end, host);
    Turn(src, Progress("b", 1, 0, 0, 0), Progress("br", 2, 0, 0, 0), end, host);
    Turn(src, START, Progress("b", 1, 0, 0, 0), end, host);
    Whole(src, end, host);
  }

  lemma Turn(src: string, p: Progress, q: Progress, end: Progress, host: Host)
    requires p.at < |src| && Advance(src, p, host) == Ok(q) && end.at >= |src| && (q == end || PassTo(src, q, |src|, host) == Ok(end))
    ensures PassTo(src, p, |src|, host) == Ok(end)
  {
  }

  lemma Whole(src: string, end: Progress, host: Host)
    requires PassTo(src, START, |src|, host) == Ok(end) && end.pending == 0
    ensures Convert(src, host) == Ok(Output(end.text, end.lost, end.gained))
  {
    assert end.text + Repeat(0) == end.text;
  }

  lemma EmptyBody(src: string, j: nat, host: Host)
    requires j < |src| && src[j] == '"'
    ensures StringBody(src, j, host) == Ok(Scan("", j, 0, 0, 0))
  {
  }

  /** A comment that ends the source is copied. */
  lemma LastComment(src: string, p: Progress, host: Host)
    requires p.at < |src| && At(src, p.at, "//") && '\n' !in src[p.at + 2..] && src[|src| - 1] != '\\'
    ensures Advance(src, p, host) == Ok(p.(text := p.text + src[p.at..], at := |src|))
  {
    AtFirst(src, p.at, "//");
    FindNone(src, '\n', p.at + 2);
    assert src[p.at..|src|] + "" == src[p.at..];
  }

  /** A raw byte string that holds a quote and two slashes: they hide its end, and the string behind it
      is not found. */
  lemma RawCommentHidesAString(host: Host)
    requires Sound(host)
    ensures Convert(RAW_COMMENT, host) == Ok(Output(RAW_COMMENT, 0, 0)) && !ReadAlike(RAW_COMMENT, host)
    ensures RustStrings(RAW_COMMENT, 0, host) == [[], [Plain('a')]] && CStrings(RAW_COMMENT) == [[]]
    ensures PrefixedAreEmpty(RAW_COMMENT, 0, host)
  {
    hide Convert, CStrings, RustStrings, Quoted, ReadAlike, PrefixedAreEmpty;
    RawCommentIsRust(host);
    RawCommentConverted(host);
    var comment := "\"#\"a\"";
    FoundBehind("br#", "\"" + ("//" + comment));
    assert "br#" + ("\"" + ("\"" + ("//" + comment))) == RAW_COMMENT && comment + "" == comment;
    ClosingRead("//" + comment);
    LineHides(comment);
    LineRead(comment, "");
    NothingFound();
  }

  const RAW_NAMED := "br\"\\u{22}//\""

  lemma RawNamedBody(host: Host)
    requires host.codePoint("22") == Some('"')
    ensures var src := RAW_NAMED;
            StringBody(src, 3, host) == Ok(Scan("\"//", 11, 0, 0, 0)) && RustUnits(src, 3, host) == [Plain('"'), Plain('/'), Plain('/')]
  {
    hide Newlines, Find;
    var src := RAW_NAMED;
    assert src[3..6] == "\\u{" && src[6..8] == "22" && src[9..11] == "//";
    NoNewlines(src[3..9]);
    FindIs(src, '}', 6, 8);
    VerbatimBody(src, 9, 11, host);
    assert StringPiece(src, 3, host) == Ok(Scan("\"", 9, 0, 0, 0)) && "\"" + "//" == "\"//";
    assert RustUnits(src, 9, host) == [Plain('/')] + ([Plain('/')] + []);
    assert RustUnits(src, 3, host) == [Plain('"')] + RustUnits(src, 9, host);
  }

  lemma RawNamedIsRust(host: Host)
    requires Sound(host) && host.codePoint("22") == Some('"')
    ensures RustStrings(RAW_NAMED, 0, host) == [[]] && !ReadAlike(RAW_NAMED, host) && !PrefixedAreEmpty(RAW_NAMED, 0, host)
  {
    var src := RAW_NAMED;
    hide Find, RustStrings, Arrives, RustUnits, Unspellable;
    assert RawOpens(src, 0, host) == Some(2) && Prefixed(src, 0, host) && RustNext(src, 0, host) == 12 by { RawNamedOpens(host); }
    RawNamedBody(host);
    FirstToken(src, host);
    assert RustStrings(src, 12, host) == [] by { NothingLeft(src, host); }
    var empty: seq<seq<Unit>> := [[]];
    assert empty + [] == empty;
    NotInName('"', host);
    AtFirst(src, 2, "//");
    AtFirst(src, 2, "/*");
    var units := RustUnits(src, 3, host);
    assert Seen(src, 2, host) == [units];
    assert units in Seen(src, 0, host);
    assert Unspellable(units[0]) by { NamesQuote(units[0]); }
    assert units[0] in units && SomeUnspellable(Seen(src, 0, host));
    OutOfStep(src, host);
  }

  lemma NamesQuote(u: Unit)
    requires u == Plain('"')
    ensures Unspellable(u)
  {
  }

  lemma OutOfStep(src: string, host: Host)
    requires src != "" && !InStepAt(src, 0, host)
    ensures !ReadAlike(src, host)
  {
  }

  lemma RawNamedOpens(host: Host)
    requires Sound(host)
    ensures RawOpens(RAW_NAMED, 0, host) == Some(2) && Prefixed(RAW_NAMED, 0, host) && RustNext(RAW_NAMED, 0, host) == 12
  {
    hide RustNext, RawOpens, Find, RustString, Prefixed, RawHashes;
    var src := RAW_NAMED;
    BytePrefix(src, 2, host);
    assert src[3..11] == "\\u{22}//";
    assert ['"'] + seq(0, _ => '#') == ['"'];
    FindIs(src, '"', 3, 11);
  }

  lemma RawNamedConverted(host: Host)
    requires Sound(host) && host.codePoint("22") == Some('"')
    ensures Convert(RAW_NAMED, host) == Ok(Output("br\"\"//\"", 0, 0))
  {
    hide StringBody, Convert;
    RawNamedBody(host);
    ByteStringConverted(RAW_NAMED, "\"//", 11, host);
    assert "br" + ("\"" + ("\"//" + "\"")) == "br\"\"//\"";
  }

  /** A raw byte string whose content would name a quote and goes on in slashes: the quote ends it and the
      slashes hide the rest, so that it is found as an empty one by accident. */
  lemma RawNamedIsFound(host: Host)
    requires Sound(host) && host.codePoint("22") == Some('"')
    ensures Convert(RAW_NAMED, host) == Ok(Output("br\"\"//\"", 0, 0)) && !ReadAlike(RAW_NAMED, host)
    ensures RustStrings(RAW_NAMED, 0, host) == [[]] && CStrings("br\"\"//\"") == [[]] && !PrefixedAreEmpty(RAW_NAMED, 0, host)
  {
    hide Convert, CStrings, RustStrings, Quoted, ReadAlike, PrefixedAreEmpty;
    RawNamedIsRust(host);
    RawNamedConverted(host);
    FoundBehind("br", "\"" + ("//" + "\""));
    assert "br" + ("\"" + ("\"" + ("//" + "\""))) == "br\"\"//\"" && "\"" + "" == "\"";
    ClosingRead("//" + "\"");
    LineHides("\"");
    LineRead("\"", "");
    NothingFound();
  }

  // ---------------------------------------------------------------- labels

  const SLASH_LABEL := "/'/\"a\""

  /** A label between two slashes leaves a line comment behind when its apostrophe is dropped. */
  lemma SlashLabelHidesAString(host: Host)
    requires Sound(host)
    ensures Convert(SLASH_LABEL, host) == Ok(Output("//\"a\"", 0, 0)) && !ReadAlike(SLASH_LABEL, host)
    ensures RustStrings(SLASH_LABEL, 0, host) == [[Plain('a')]] && CStrings("//\"a\"") == []
  {
    hide Convert, CStrings, RustStrings;
    SlashLabelIsRust(host);
    SlashLabelConverted(host);
    assert "//\"a\""[2..] == "\"a\"" && "//\"a\""[..2] == "//";
    assert "\"a\"" + "" == "\"a\"" && "//" + "\"a\"" == "//\"a\"";
    LineRead("\"a\"", "");
    assert CStrings("//\"a\"") == CStrings("") by { LineHides("\"a\""); }
    NothingFound();
  }

  lemma LineHides(t: string)
    ensures CStrings("//" + t) == CStrings(AfterLine(t))
  {
    assert ("//" + t)[..2] == "//" && ("//" + t)[2..] == t;
  }

  lemma LetterString(src: string, i: nat, host: Host)
    requires Sound(host) && i + 3 == |src| && src[i] == '"' && src[i + 1] == 'a' && src[i + 2] == '"'
    ensures RustStrings(src, i, host) == [[Plain('a')]]
  {
    AtFirst(src, i, "//");
    AtFirst(src, i, "/*");
    NotInName('"', host);
    assert RustUnits(src, i + 1, host) == [Plain('a')] + RustUnits(src, i + 2, host) == [Plain('a')];
    assert StringEnd(src, i + 2) == i + 3 && StringEnd(src, i + 1) == i + 3;
    assert RustNext(src, i, host) == i + 3;
    assert [[Plain('a')]] + [] == [[Plain('a')]];
  }

  lemma SlashLabelIsRust(host: Host)
    requires Sound(host)
    ensures RustStrings(SLASH_LABEL, 0, host) == [[Plain('a')]] && !ReadAlike(SLASH_LABEL, host)
  {
    hide RustStrings;
    var src := SLASH_LABEL;
    assert src[0..2] == "/'" && src[1..3] == "'/" && src[2..4] == "/\"";
    NotInName('/', host);
    NotInName('\'', host);
    NoStringHere(src, 0, 1, host);
    NoStringHere(src, 1, 2, host);
    NoStringHere(src, 2, 3, host);
    LetterString(src, 3, host);
    assert LiteralEnd(src, 1).None?;
    assert !InStepAt(src, 0, host);
  }

  lemma SlashLabelConverted(host: Host)
    requires Sound(host)
    ensures Convert(SLASH_LABEL, host) == Ok(Output("//\"a\"", 0, 0))
  {
    hide Advance, Convert, PassTo;
    var src := SLASH_LABEL;
    var end := Progress("//\"a\"", 6, 0, 0, 0);
    SlashesCopied(host);
    LetterConverted(host);
    Turn(src, Progress("//", 3, 0, 0, 0), end, end, host);
    Turn(src, Progress("/", 2, 0, 0, 0), Progress("//", 3, 0, 0, 0), end, host);
    Turn(src, Progress("/", 1, 0, 0, 0), Progress("/", 2, 0, 0, 0), end, host);
    Turn(src, START, Progress("/", 1, 0, 0, 0), end, host);
    Whole(src, end, host);
  }

  lemma SlashesCopied(host: Host)
    ensures Advance(SLASH_LABEL, START, host) == Ok(Progress("/", 1, 0, 0, 0))
    ensures Advance(SLASH_LABEL, Progress("/", 1, 0, 0, 0), host) == Ok(Progress("/", 2, 0, 0, 0))
    ensures Advance(SLASH_LABEL, Progress("/", 2, 0, 0, 0), host) == Ok(Progress("//", 3, 0, 0, 0))
  {
    hide Advance;
    var src := SLASH_LABEL;
    assert src[0] == '/' && src[1] == '\'' && src[2] == '/' && src[3] == '"';
    PairAt(src, 0, '/', '/');
    PairAt(src, 0, '/', '*');
    PairAt(src, 2, '/', '/');
    PairAt(src, 2, '/', '*');
    Copied(src, START, host);
    ClosingQuote(src, Progress("/", 1, 0, 0, 0), host);
    Copied(src, Progress("/", 2, 0, 0, 0), host);
    assert START.text + ['/'] == "/" && "/" + ['/'] == "//";
  }

  lemma LetterConverted(host: Host)
    ensures Advance(SLASH_LABEL, Progress("//", 3, 0, 0, 0), host) == Ok(Progress("//\"a\"", 6, 0, 0, 0))
  {
    hide Advance, StringBody;
    var src := SLASH_LABEL;
    assert src[3] == '"' && src[5] == '"' && src[4..5] == "a";
    VerbatimBody(src, 4, 5, host);
    StringTurn(src, Progress("//", 3, 0, 0, 0), "a", 5, host);
    assert "//" + ("\"" + ("a" + "\"")) == "//\"a\"";
  }

  const RAW_LABEL := "'r\"a\""

  /** A label `r` right before a string makes that string a raw one. */
  lemma LabelMakesRaw(host: Host)
    requires Sound(host)
    ensures Convert(RAW_LABEL, host) == Ok(Output("\"\"", 0, 0)) && !ReadAlike(RAW_LABEL, host)
    ensures RustStrings(RAW_LABEL, 0, host) == [[Plain('a')]] && CStrings("\"\"") == [[]]
  {
    hide Convert, CStrings, RustStrings;
    RawLabelIsRust(host);
    RawLabelConverted(host);
    EmptyRead("");
    assert "\"\"" + "" == "\"\"";
    NothingFound();
  }

  lemma RawLabelIsRust(host: Host)
    requires Sound(host)
    ensures RustStrings(RAW_LABEL, 0, host) == [[Plain('a')]] && !ReadAlike(RAW_LABEL, host)
  {
    hide RustUnits;
    var src := RAW_LABEL;
    LetterString(src, 2, host);
    NotInName('\'', host);
    NotInName('"', host);
    AtFirst(src, 0, "//");
    AtFirst(src, 0, "/*");
    assert src[1..2] == "r" && RawOpens(src, 1, host) == Some(2);
    assert [] + [[Plain('a')]] == [[Plain('a')]];
  }

  lemma RawLabelConverted(host: Host)
    requires Sound(host)
    ensures Convert(RAW_LABEL, host) == Ok(Output("\"\"", 0, 0))
  {
    hide Advance;
    var src := RAW_LABEL;
    var p, end := Progress("", 1, 0, 0, 0), Progress("\"\"", 5, 0, 0, 0);
    ClosingQuote(src, START, host);
    assert Advance(src, p, host) == Ok(end) by { RawLabelTurn(host); }
    assert PassTo(src, end, 5, host) == Ok(end);
    assert PassTo(src, p, 5, host) == Ok(end);
    assert end.text + Repeat(0) == end.text;
  }

  lemma RawLabelTurn(host: Host)
    requires Sound(host)
    ensures Advance(RAW_LABEL, Progress("", 1, 0, 0, 0), host) == Ok(Progress("\"\"", 5, 0, 0, 0))
  {
    var src := RAW_LABEL;
    NotInName('\'', host);
    AtFirst(src, 1, "//");
    AtFirst(src, 1, "/*");
    assert ['"'] + seq(0, _ => '#') == ['"'];
    FindOn(src, '"', 3);
    FindHere(src, '"', 4);
    assert src[3..4] == "a";
    NoNewlines("a");
    assert "" + "\"\"" == "\"\"";
  }
}
