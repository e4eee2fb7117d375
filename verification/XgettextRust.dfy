/** The strings of a Rust source as Rust reads it: a lexer written from the language and not from the
    rewriter, and the exact condition under which a C lexer finds those strings in the rewritten
    source. */
module XgettextRust {
  import opened Prelude
  import opened Xgettext
  import opened XgettextStrings

  predicate NameChar(c: char, host: Host) { host.isAlnum(c) || c == '_' }

  /** What holds of every host: punctuation is no part of a name, the letters of the prefixes are, and a
      code point is not spelled with quotes or backslashes. */
  ghost predicate Sound(host: Host) {
    && (forall c | c in "\"'/*\\#\n" :: !host.isAlnum(c))
    && host.isAlnum('r') && host.isAlnum('b') && host.isAlnum('c')
    && (forall s :: host.codePoint(s).Some? ==> '"' !in s && '\\' !in s)
  }

  // ---------------------------------------------------------------- the tokens of Rust

  function WordEnd(src: string, i: nat, host: Host): (k: nat)
    requires i <= |src|
    ensures i <= k <= |src| && (k < |src| ==> !NameChar(src[k], host)) && forall j :: i <= j < k ==> NameChar(src[j], host)
    decreases |src| - i
  {
    if i < |src| && NameChar(src[i], host) then WordEnd(src, i + 1, host) else i
  }

  /** The end of a block comment of which `depth` levels are open; comments nest. */
  function CommentEnd(src: string, j: nat, depth: nat): (k: nat)
    requires j <= |src|
    ensures j <= k <= |src|
    decreases |src| - j
  {
    if depth == 0 || j == |src| then j
    else if At(src, j, "/*") then CommentEnd(src, j + 2, depth + 1)
    else if At(src, j, "*/") then CommentEnd(src, j + 2, depth - 1)
    else CommentEnd(src, j + 1, depth)
  }

  /** The end of an ordinary string: a backslash takes the next character with it. */
  function StringEnd(src: string, j: nat): (k: nat)
    ensures j <= k
    decreases |src| - j
  {
    if j >= |src| then j
    else if src[j] == '"' then j + 1
    else if src[j] == '\\' then StringEnd(src, j + 2)
    else StringEnd(src, j + 1)
  }

  /** What a continued line begins with is no part of the string. */
  function AfterBlanks(src: string, j: nat): (k: nat)
    requires j <= |src|
    ensures j <= k <= |src|
    decreases |src| - j
  {
    if j < |src| && src[j] in " \t\n\r" then AfterBlanks(src, j + 1) else j
  }

  /** What an ordinary string spells. */
  function RustUnits(src: string, j: nat, host: Host): seq<Unit>
    decreases |src| - j
  {
    if j >= |src| || src[j] == '"' then []
    else if src[j] == '\n' then [Escaped('n')] + RustUnits(src, j + 1, host)
    else if src[j] != '\\' then [Plain(src[j])] + RustUnits(src, j + 1, host)
    else if j + 1 == |src| then [Plain('\\')]
    else if src[j + 1] == '\n' then RustUnits(src, AfterBlanks(src, j + 2), host)
    else if src[j + 1] == 'u' && j + 2 < |src| && src[j + 2] == '{' then
      var close := Find(src, "}", j + 3);
      if close == |src| || host.codePoint(src[j + 3..close]).None? then []
      else [Plain(host.codePoint(src[j + 3..close]).value)] + RustUnits(src, close + 1, host)
    else [Escaped(src[j + 1])] + RustUnits(src, j + 2, host)
  }

  /** A word at `i` begins a raw string, a byte one or a C one: the position of its opening quote. */
  function RawOpens(src: string, i: nat, host: Host): (quote: Option<nat>)
    requires i <= |src|
    ensures quote.Some? ==> WordEnd(src, i, host) <= quote.value < |src|
  {
    var w := WordEnd(src, i, host);
    var quote := Hashes(src, w);
    if src[i..w] in ["r", "br", "cr"] && quote < |src| && src[quote] == '"' then Some(quote) else None
  }

  /** Where the content of a raw string ends: before the first quote with as many hashes behind it. */
  function RawCloses(src: string, i: nat, host: Host): (k: nat)
    requires i <= |src| && RawOpens(src, i, host).Some?
    ensures RawOpens(src, i, host).value < k <= |src|
  {
    Find(src, ['"'] + seq(RawHashes(src, i, host), _ => '#'), RawOpens(src, i, host).value + 1)
  }

  function RawHashes(src: string, i: nat, host: Host): nat
    requires i <= |src| && RawOpens(src, i, host).Some?
  {
    RawOpens(src, i, host).value - WordEnd(src, i, host)
  }

  /** The end of the character literal at `i`, if it is one and not a label. */
  function LiteralEnd(src: string, i: nat): Option<nat>
    requires i < |src| && src[i] == '\''
  {
    if i + 2 < |src| && src[i + 1] == '\\' then
      var close := Find(src, "'", i + 3);
      if close < |src| then Some(close + 1) else None
    else if i + 2 < |src| && src[i + 2] == '\'' && src[i + 1] != '\n' then Some(i + 3)
    else None
  }

  /** The end of the token at `i`; an unterminated one reaches to the end of the source. */
  function RustNext(src: string, i: nat, host: Host): (k: nat)
    requires i < |src|
    ensures i < k
  {
    if At(src, i, "//") then Find(src, "\n", i + 2)
    else if At(src, i, "/*") then CommentEnd(src, i + 2, 1)
    else if NameChar(src[i], host) then
      if RawOpens(src, i, host).Some? then RawCloses(src, i, host) + 1 + RawHashes(src, i, host) else WordEnd(src, i, host)
    else if src[i] == '"' then StringEnd(src, i + 1)
    else if src[i] == '\'' then
      if LiteralEnd(src, i).Some? then LiteralEnd(src, i).value else WordEnd(src, i + 1, host)
    else i + 1
  }

  /** The string the token at `i` is, if it is one. A raw string is never a message, whatever its
      prefix, and is to stand as an empty one. */
  function RustString(src: string, i: nat, host: Host): seq<seq<Unit>>
    requires i < |src|
  {
    if At(src, i, "//") || At(src, i, "/*") then []
    else if NameChar(src[i], host) then (if RawOpens(src, i, host).Some? then [[]] else [])
    else if src[i] == '"' then [RustUnits(src, i + 1, host)]
    else []
  }

  function RustStrings(src: string, i: nat, host: Host): seq<seq<Unit>>
    decreases |src| - i
  {
    if i >= |src| then [] else RustString(src, i, host) + RustStrings(src, RustNext(src, i, host), host)
  }

  // ---------------------------------------------------------------- what the rewriter reads otherwise

  /** A raw string behind a `b` or a `c`, which the rewriter takes for a word and an ordinary string. */
  predicate Prefixed(src: string, i: nat, host: Host)
    requires i < |src|
  {
    !At(src, i, "//") && !At(src, i, "/*") && NameChar(src[i], host) && src[i] != 'r' && RawOpens(src, i, host).Some?
  }

  /** The rewriter comes out of the token at `i` where Rust does. An escaped quote is not followed by
      what it takes for a literal; a raw string with a prefix, read as source from its quote on, has a
      token end where it does, and holds no escape that a C string cannot spell; no slash has a label
      right behind it, and no label is an `r` that opens a raw string. */
  ghost predicate InStepAt(src: string, i: nat, host: Host)
    requires i < |src|
    decreases |src| - i, 0
  {
    && (At(src, i, "'\\'") ==> i + 3 < |src| && src[i + 3] == '\'' && !Misread(src, i + 4))
    && (Prefixed(src, i, host) ==>
          Arrives(src, RawOpens(src, i, host).value, RustNext(src, i, host), host) && !SomeUnspellable(Seen(src, i, host)))
    && (src[i] == '/' && i + 1 < |src| && src[i + 1] == '\'' ==> LiteralEnd(src, i + 1).Some?)
    && (src[i] == '\'' && LiteralEnd(src, i).None? && i + 1 < |src| && src[i + 1] == 'r' ==> RawOpens(src, i + 1, host).None?)
  }

  /** Token by token, and in step with the rewriter, the place `j` leads to `end`. */
  ghost predicate Arrives(src: string, j: nat, end: nat, host: Host)
    decreases |src| - j, 1
  {
    if j >= |src| then end >= |src|
    else j == end || (j < end && InStepAt(src, j, host) && Arrives(src, RustNext(src, j, host), end, host))
  }

  ghost predicate ReadAlike(src: string, host: Host) { Arrives(src, 0, |src|, host) }

  /** The strings the rewriter sees in the token at `i`: a raw string with a prefix is source to it. */
  function Seen(src: string, i: nat, host: Host): seq<seq<Unit>>
    requires i < |src|
    decreases |src| - i, 0
  {
    if Prefixed(src, i, host) then SeenBetween(src, RawOpens(src, i, host).value, RustNext(src, i, host), host)
    else RustString(src, i, host)
  }

  function SeenBetween(src: string, j: nat, end: nat, host: Host): seq<seq<Unit>>
    decreases |src| - j, 1
  {
    if j >= |src| || j >= end then [] else Seen(src, j, host) + SeenBetween(src, RustNext(src, j, host), end, host)
  }

  /** Every raw string with a prefix is seen as one empty string. */
  predicate PrefixedAreEmpty(src: string, i: nat, host: Host)
    decreases |src| - i
  {
    i >= |src| || ((Prefixed(src, i, host) ==> Seen(src, i, host) == [[]]) && PrefixedAreEmpty(src, RustNext(src, i, host), host))
  }

  // ---------------------------------------------------------------- from one place to another

  /** Between `i` and `n` the rewriter reads the strings `seen`, and it comes by `n`. */
  ghost predicate Aligned(src: string, i: nat, n: nat, seen: seq<seq<Unit>>, host: Host) {
    && Readable(src, n, host)
    && Strings(src, i, host) == seen + Strings(src, n, host)
    && (SlashesStand(src, n, host) ==> SlashesStand(src, i, host))
  }

  lemma AlignedOn(src: string, i: nat, k: nat, n: nat, a: seq<seq<Unit>>, b: seq<seq<Unit>>, host: Host)
    requires Aligned(src, i, k, a, host) && Aligned(src, k, n, b, host)
    ensures Aligned(src, i, n, a + b, host)
  {
    hide Readable, Strings, SlashesStand;
    Regroup(a, b, Strings(src, n, host));
  }

  /** Past the end of the source all places are alike. */
  lemma AlignedPast(src: string, i: nat, k: nat, n: nat, seen: seq<seq<Unit>>, host: Host)
    requires Aligned(src, i, k, seen, host) && k >= |src| && n >= |src|
    ensures Aligned(src, i, n, seen, host)
  {
  }

  lemma AlignedHere(src: string, i: nat, host: Host)
    requires Readable(src, i, host)
    ensures Aligned(src, i, i, [], host)
  {
    hide Strings, SlashesStand;
    assert [] + Strings(src, i, host) == Strings(src, i, host);
  }

  lemma ConstructAligned(src: string, i: nat, host: Host)
    requires i < |src| && src[i] != '\n' && Readable(src, i, host)
    requires src[i] == '/' && i + 1 < |src| && src[i + 1] == '\'' ==> Apostrophe(src, i + 1).text != ""
    ensures Construct(src, i, host).Ok? && Aligned(src, i, Construct(src, i, host).value.next, StringAt(src, i, host), host)
  {
    hide Construct, StringAt, Apostrophe;
  }

  lemma NewlineAligned(src: string, i: nat, host: Host)
    requires i < |src| && src[i] == '\n' && Readable(src, i, host)
    ensures Aligned(src, i, i + 1, [], host)
  {
    hide Construct, StringAt;
    assert [] + Strings(src, i + 1, host) == Strings(src, i + 1, host);
  }

  /** A character that starts nothing is copied. */
  lemma CopiedAligned(src: string, i: nat, host: Host)
    requires i < |src| && src[i] !in "/\"'\n" && RawQuote(src, i, host).None? && Readable(src, i, host)
    ensures Aligned(src, i, i + 1, [], host)
  {
    AtFirst(src, i, "//");
    AtFirst(src, i, "/*");
    ConstructAligned(src, i, host);
  }

  lemma NameCharIsPlain(c: char, host: Host)
    requires Sound(host) && NameChar(c, host)
    ensures c !in "\"'/*\\#\n"
  {
  }

  /** The rest of a word, whose characters follow another of its own, or an apostrophe that was dropped,
      is copied. */
  lemma {:induction false} WordAligned(src: string, i: nat, k: nat, host: Host)
    requires Sound(host) && i <= k <= |src| && Readable(src, i, host) && forall j :: i <= j < k ==> NameChar(src[j], host)
    requires i < k ==> RawQuote(src, i, host).None?
    ensures Aligned(src, i, k, [], host)
    decreases k - i
  {
    hide Aligned, Readable, RawQuote, Sound;
    if i == k {
      AlignedHere(src, i, host);
    } else {
      NameCharIsPlain(src[i], host);
      CopiedAligned(src, i, host);
      AlignedReads(src, i, i + 1, [], host);
      if i + 1 < k { InsideWord(src, i + 1, host); }
      WordAligned(src, i + 1, k, host);
      AlignedOn(src, i, i + 1, k, [], [], host);
      var none: seq<seq<Unit>> := [];
      assert none + none == none;
    }
  }

  lemma AlignedReads(src: string, i: nat, n: nat, seen: seq<seq<Unit>>, host: Host)
    requires Aligned(src, i, n, seen, host)
    ensures Readable(src, n, host)
  {
  }

  lemma InsideWord(src: string, i: nat, host: Host)
    requires 0 < i < |src| && NameChar(src[i - 1], host)
    ensures RawQuote(src, i, host).None?
  {
  }

  /** Hashes that follow something are copied. */
  lemma {:induction false} HashesAligned(src: string, i: nat, k: nat, host: Host)
    requires i <= k <= |src| && Readable(src, i, host) && forall j :: i <= j < k ==> src[j] == '#'
    ensures Aligned(src, i, k, [], host)
    decreases k - i
  {
    hide Aligned, Readable;
    if i == k {
      AlignedHere(src, i, host);
    } else {
      CopiedAligned(src, i, host);
      AlignedReads(src, i, i + 1, [], host);
      HashesAligned(src, i + 1, k, host);
      AlignedOn(src, i, i + 1, k, [], [], host);
      var none: seq<seq<Unit>> := [];
      assert none + none == none;
    }
  }

  // ---------------------------------------------------------------- comments and words

  lemma {:induction false} CommentsEndAlike(src: string, j: nat, depth: nat)
    requires j <= |src|
    ensures BlockComment(src, j, depth).next == CommentEnd(src, j, depth)
    decreases |src| - j
  {
    hide At;
    if depth > 0 && j < |src| {
      if At(src, j, "/*") {
        AtInside(src, j, "/*");
        CommentsEndAlike(src, j + 2, depth + 1);
      } else if At(src, j, "*/") {
        AtInside(src, j, "*/");
        CommentsEndAlike(src, j + 2, depth - 1);
      } else {
        CommentsEndAlike(src, j + 1, depth);
      }
    }
  }

  lemma CommentAligned(src: string, i: nat, host: Host)
    requires i < |src| && (At(src, i, "//") || At(src, i, "/*")) && Readable(src, i, host)
    ensures Aligned(src, i, RustNext(src, i, host), [], host) && Seen(src, i, host) == []
  {
    hide Aligned, Readable, BlockComment, CommentEnd, LineComment;
    AtFirst(src, i, "//");
    AtFirst(src, i, "/*");
    CommentOpens(src, i);
    ConstructAligned(src, i, host);
    CommentsEndAlike(src, i + 2, 1);
    LineEndsAlike(src, i);
  }

  lemma CommentOpens(src: string, i: nat)
    requires i < |src| && (At(src, i, "//") || At(src, i, "/*"))
    ensures i + 2 <= |src| && src[i] == '/' && src[i + 1] != '\''
  {
    assert src[i..i + 2][0] == src[i] && src[i..i + 2][1] == src[i + 1];
  }

  lemma LineEndsAlike(src: string, i: nat)
    ensures At(src, i, "//") ==> LineComment(src, i).next == Find(src, "\n", i + 2)
  {
  }

  /** The rewriter sees a raw string only where Rust does. */
  lemma RawQuoteOpens(src: string, i: nat, host: Host)
    requires Sound(host) && i < |src| && RawQuote(src, i, host).Some?
    ensures src[i] == 'r' && RawOpens(src, i, host) == RawQuote(src, i, host) && WordEnd(src, i, host) == i + 1
  {
    var quote := RawQuote(src, i, host).value;
    assert src[i + 1] == '#' || quote == i + 1;
    NotInName(src[i + 1], host);
    assert src[i..i + 1] == "r";
  }

  lemma NotInName(c: char, host: Host)
    requires Sound(host) && c in "\"'/*\\#\n"
    ensures !NameChar(c, host)
  {
  }

  /** A name never begins right behind a name character. */
  predicate Fresh(src: string, i: nat, host: Host) { 0 < i < |src| && NameChar(src[i], host) ==> !NameChar(src[i - 1], host) }

  lemma RawWord(src: string, i: nat, host: Host)
    requires Sound(host) && i < |src| && NameChar(src[i], host) && RawOpens(src, i, host).Some?
    ensures if src[i] == 'r' then WordEnd(src, i, host) == i + 1 else WordEnd(src, i, host) == i + 2 && src[i + 1] == 'r'
  {
    var w := WordEnd(src, i, host);
    var word := src[i..w];
    assert word == "r" || word == "br" || word == "cr";
    assert word[0] == src[i];
    if w == i + 2 { assert word[1] == src[i + 1]; }
  }

  /** A raw string without a prefix is read as Rust reads it. */
  lemma RawAligned(src: string, i: nat, host: Host)
    requires Sound(host) && i < |src| && src[i] == 'r' && Fresh(src, i, host) && Readable(src, i, host) && RawOpens(src, i, host).Some?
    ensures Aligned(src, i, RustNext(src, i, host), [[]], host) && Seen(src, i, host) == [[]]
  {
    hide Aligned, Readable, Sound, Find;
    NameStart(src, i, host);
    RawWord(src, i, host);
    AtFirst(src, i, "//");
    AtFirst(src, i, "/*");
    assert RawQuote(src, i, host) == RawOpens(src, i, host);
    ConstructAligned(src, i, host);
    RawNext(src, i, host);
  }

  lemma NameStart(src: string, i: nat, host: Host)
    requires Sound(host) && i < |src| && src[i] == 'r'
    ensures NameChar(src[i], host)
  {
  }

  lemma RawNext(src: string, i: nat, host: Host)
    requires i < |src| && src[i] == 'r' && RawOpens(src, i, host).Some? && WordEnd(src, i, host) == i + 1
    ensures RawString(src, i, RawOpens(src, i, host).value).next == RawCloses(src, i, host) + 1 + RawHashes(src, i, host)
  {
  }

  // ---------------------------------------------------------------- ordinary strings

  /** Characters that are neither quotes nor backslashes do not end a string. */
  lemma {:induction false} GoesOnTo(src: string, j: nat, k: nat)
    requires j <= k <= |src| && '"' !in src[j..k] && '\\' !in src[j..k]
    ensures StringEnd(src, j) == StringEnd(src, k)
    decreases k - j
  {
    if j < k {
      assert src[j] == src[j..k][0];
      assert forall c | c in src[j + 1..k] :: c in src[j..k];
      GoesOnTo(src, j + 1, k);
    }
  }

  lemma {:induction false} BlanksOnlySkipped(src: string, j: nat)
    requires j <= |src|
    ensures '"' !in src[j..SkipBlank(src, j)] && '\\' !in src[j..SkipBlank(src, j)]
    decreases |src| - j
  {
    if j < |src| && Blank(src[j]) {
      BlanksOnlySkipped(src, j + 1);
      assert src[j..SkipBlank(src, j)] == [src[j]] + src[j + 1..SkipBlank(src, j + 1)];
    }
  }

  lemma {:induction false} BlanksAlike(src: string, j: nat)
    requires j <= |src|
    ensures SkipBlank(src, j) == AfterBlanks(src, j)
    decreases |src| - j
  {
    if j < |src| { BlanksAlike(src, j + 1); }
  }

  /** One piece of a string is read as Rust reads it. */
  lemma PieceAlike(src: string, j: nat, host: Host)
    requires Sound(host) && j < |src| && src[j] != '"' && StringPiece(src, j, host).Ok?
    ensures var next := StringPiece(src, j, host).value.next;
            && (next <= |src| ==> StringEnd(src, j) == StringEnd(src, next))
            && (next > |src| ==> StringEnd(src, j) >= |src|)
            && RustUnits(src, j, host) == PieceUnits(src, j, host) + RustUnits(src, next, host)
  {
    hide Find, SkipBlank, AfterBlanks, Sound;
    var next := StringPiece(src, j, host).value.next;
    if src[j] == '\\' && j + 1 < |src| {
      if src[j + 1] == '\n' {
        BlanksOnlySkipped(src, j + 2);
        BlanksAlike(src, j + 2);
        GoesOnTo(src, j + 2, next);
        assert [] + RustUnits(src, next, host) == RustUnits(src, next, host);
      } else if At(src, j, "\\u{") {
        CodePointAlike(src, j, host);
      } else {
        NoCodePoint(src, j);
      }
    } else if src[j] == '\\' {
      assert [Plain('\\')] + [] == [Plain('\\')];
    }
  }

  lemma NoCodePoint(src: string, j: nat)
    requires j + 1 < |src| && src[j] == '\\' && !At(src, j, "\\u{")
    ensures !(src[j + 1] == 'u' && j + 2 < |src| && src[j + 2] == '{')
  {
    if j + 2 < |src| { assert src[j..j + 3] == [src[j], src[j + 1], src[j + 2]]; }
  }

  lemma CodePointAlike(src: string, j: nat, host: Host)
    requires Sound(host) && j < |src| && At(src, j, "\\u{") && StringPiece(src, j, host).Ok?
    ensures var next := StringPiece(src, j, host).value.next;
            && next <= |src| && StringEnd(src, j) == StringEnd(src, next)
            && RustUnits(src, j, host) == PieceUnits(src, j, host) + RustUnits(src, next, host)
  {
    hide Find, StringEnd, Sound, RustUnits;
    var there := src[j..j + 3];
    assert there[0] == src[j] && there[1] == src[j + 1] && there[2] == src[j + 2];
    var close := Find(src, "}", j + 3);
    assert RustUnits(src, j, host) == PieceUnits(src, j, host) + RustUnits(src, close + 1, host) by { CodePointUnits(src, j, host); }
    assert src[close] == '}' by { assert src[close..close + 1] == "}"; }
    var name := src[j + 3..close];
    assert host.codePoint(name).Some?;
    NoQuoteNamed(name, host);
    assert src[j + 2..close + 1] == ['{'] + name + ['}'];
    GoesOnTo(src, j + 2, close + 1);
    assert StringEnd(src, j) == StringEnd(src, j + 2) by { EscapeStays(src, j); }
  }

  lemma NoQuoteNamed(name: string, host: Host)
    requires Sound(host) && host.codePoint(name).Some?
    ensures '"' !in name && '\\' !in name
  {
  }

  lemma EscapeStays(src: string, j: nat)
    requires j < |src| && src[j] == '\\'
    ensures StringEnd(src, j) == StringEnd(src, j + 2)
  {
  }

  lemma CodePointUnits(src: string, j: nat, host: Host)
    requires j + 2 < |src| && At(src, j, "\\u{") && src[j] == '\\' && src[j + 1] == 'u' && src[j + 2] == '{' && StringPiece(src, j, host).Ok?
    ensures RustUnits(src, j, host) == PieceUnits(src, j, host) + RustUnits(src, Find(src, "}", j + 3) + 1, host)
  {
    hide Find;
  }

  lemma {:induction false} StringsAlike(src: string, j: nat, host: Host)
    requires Sound(host) && StringBody(src, j, host).Ok?
    ensures StringUnits(src, j, host) == RustUnits(src, j, host)
    ensures var next := StringBody(src, j, host).value.next + 1;
            StringEnd(src, j) == next || (StringEnd(src, j) >= |src| && next >= |src|)
    decreases |src| - j
  {
    hide StringPiece, PieceUnits, Sound;
    if j < |src| && src[j] != '"' {
      PieceAlike(src, j, host);
      StringsAlike(src, StringPiece(src, j, host).value.next, host);
    }
  }

  lemma StringAligned(src: string, i: nat, host: Host)
    requires Sound(host) && i < |src| && src[i] == '"' && Readable(src, i, host)
    ensures Aligned(src, i, RustNext(src, i, host), Seen(src, i, host), host)
  {
    hide Aligned, Readable, Sound, StringBody, StringUnits, RustUnits, StringEnd;
    AtFirst(src, i, "//");
    AtFirst(src, i, "/*");
    NotInName('"', host);
    QuoteAligned(src, i, host);
    StringsAlike(src, i + 1, host);
    var next := StringBody(src, i + 1, host).value.next + 1;
    if RustNext(src, i, host) != next { AlignedPast(src, i, next, RustNext(src, i, host), [StringUnits(src, i + 1, host)], host); }
  }

  // ---------------------------------------------------------------- raw strings with a prefix

  /** Where the content of a raw string ends there are a quote and its hashes, or the source does. */
  lemma RawClosing(src: string, i: nat, host: Host)
    requires i <= |src| && RawOpens(src, i, host).Some?
    ensures var end := RawCloses(src, i, host);
            end < |src| ==> src[end] == '"' && end + 1 + RawHashes(src, i, host) <= |src| && forall j :: end < j < end + 1 + RawHashes(src, i, host) ==> src[j] == '#'
  {
    hide Hashes, WordEnd;
    var h := RawHashes(src, i, host);
    var pattern := ['"'] + seq(h, _ => '#');
    var end := RawCloses(src, i, host);
    if end < |src| {
      var there := src[end..end + |pattern|];
      assert there == pattern && |pattern| == h + 1;
      assert src[end] == there[0];
      forall j | end < j < end + 1 + h ensures src[j] == '#' { assert src[j] == there[j - end] == pattern[j - end]; }
    }
  }

  lemma QuoteAligned(src: string, i: nat, host: Host)
    requires i < |src| && src[i] == '"' && Readable(src, i, host)
    ensures StringBody(src, i + 1, host).Ok?
    ensures Aligned(src, i, StringBody(src, i + 1, host).value.next + 1, [StringUnits(src, i + 1, host)], host)
  {
    hide Aligned, Readable, StringBody, StringUnits;
    AtFirst(src, i, "//");
    AtFirst(src, i, "/*");
    ConstructAligned(src, i, host);
  }

  lemma PrefixAligned(src: string, i: nat, host: Host)
    requires Sound(host) && i < |src| && Prefixed(src, i, host) && Readable(src, i, host)
    ensures Aligned(src, i, RawOpens(src, i, host).value, [], host)
  {
    hide Aligned, Readable, Sound;
    var w, quote := WordEnd(src, i, host), RawOpens(src, i, host).value;
    WordAligned(src, i, w, host);
    AlignedReads(src, i, w, [], host);
    HashesAligned(src, w, quote, host);
    AlignedOn(src, i, w, quote, [], [], host);
    var none: seq<seq<Unit>> := [];
    assert none + none == none;
  }

  lemma RawQuoteThere(src: string, i: nat, host: Host)
    requires Sound(host) && i < |src| && Prefixed(src, i, host)
    ensures var quote := RawOpens(src, i, host).value; i < quote && src[quote] == '"' && Fresh(src, quote, host)
  {
    NotInName('"', host);
  }

  // ---------------------------------------------------------------- apostrophes

  lemma ApostropheAligned(src: string, i: nat, host: Host)
    requires i < |src| && src[i] == '\'' && Readable(src, i, host)
    ensures Aligned(src, i, Apostrophe(src, i).next, [], host)
  {
    hide Aligned, Readable, Apostrophe, Construct;
    QuoteIsApostrophe(src, i, host);
    ConstructAligned(src, i, host);
    AtFirst(src, i, "//");
    AtFirst(src, i, "/*");
  }

  lemma FindOn(src: string, c: char, i: nat)
    requires i < |src| && src[i] != c
    ensures Find(src, [c], i) == Find(src, [c], i + 1)
  {
    assert src[i..i + 1] == [src[i]];
  }

  lemma FindHere(src: string, c: char, i: nat)
    requires i < |src| && src[i] == c
    ensures Find(src, [c], i) == i
  {
    assert src[i..i + 1] == [src[i]];
  }

  /** Every literal but the escaped quote ends where the rewriter says it does, and what is no literal
      is none to the rewriter. */
  lemma LiteralsAlike(src: string, i: nat)
    requires i < |src| && src[i] == '\'' && !At(src, i, "'\\'")
    ensures LiteralEnd(src, i).Some? ==> Apostrophe(src, i).next == LiteralEnd(src, i).value
    ensures LiteralEnd(src, i).None? ==> Apostrophe(src, i).next == i + 1
  {
    hide Find, Newlines;
    if i + 2 < |src| && src[i + 1] == '\\' {
      assert src[i..i + 3] == ['\'', '\\', src[i + 2]];
      FindOn(src, '\'', i + 2);
    }
  }

  /** The escaped quote is read in two turns. */
  lemma EscapedQuoteAligned(src: string, i: nat, host: Host)
    requires i + 3 < |src| && At(src, i, "'\\'") && src[i + 3] == '\'' && !Misread(src, i + 4) && Readable(src, i, host)
    ensures LiteralEnd(src, i) == Some(i + 4) && Aligned(src, i, i + 4, [], host)
  {
    hide Aligned, Readable, Find, Newlines;
    var there := src[i..i + 3];
    assert there[0] == src[i] && there[1] == src[i + 1] && there[2] == src[i + 2];
    FindHere(src, '\'', i + 2);
    FindHere(src, '\'', i + 3);
    ApostropheAligned(src, i, host);
    AlignedReads(src, i, i + 3, [], host);
    ApostropheAligned(src, i + 3, host);
    AlignedOn(src, i, i + 3, i + 4, [], [], host);
    var none: seq<seq<Unit>> := [];
    assert none + none == none;
  }

  lemma LabelAligned(src: string, i: nat, host: Host)
    requires Sound(host) && i < |src| && src[i] == '\'' && Apostrophe(src, i).next == i + 1 && Readable(src, i, host)
    requires i + 1 < |src| && src[i + 1] == 'r' ==> RawOpens(src, i + 1, host).None?
    ensures Aligned(src, i, WordEnd(src, i + 1, host), [], host)
  {
    hide Aligned, Readable, Sound, Apostrophe, RawOpens, RawQuote;
    ApostropheAligned(src, i, host);
    AlignedReads(src, i, i + 1, [], host);
    if i + 1 < |src| && RawQuote(src, i + 1, host).Some? {
      RawQuoteOpens(src, i + 1, host);
      assert false;
    }
    WordAligned(src, i + 1, WordEnd(src, i + 1, host), host);
    AlignedOn(src, i, i + 1, WordEnd(src, i + 1, host), [], [], host);
    var none: seq<seq<Unit>> := [];
    assert none + none == none;
  }

  lemma QuoteTokenAligned(src: string, i: nat, host: Host)
    requires Sound(host) && i < |src| && src[i] == '\'' && InStepAt(src, i, host) && Readable(src, i, host)
    ensures Aligned(src, i, RustNext(src, i, host), [], host) && Seen(src, i, host) == []
  {
    hide Aligned, Readable, Sound, Apostrophe, LiteralEnd, RawOpens, NameChar, Misread;
    NotInName('\'', host);
    AtFirst(src, i, "//");
    AtFirst(src, i, "/*");
    if At(src, i, "'\\'") {
      EscapedQuoteAligned(src, i, host);
    } else {
      LiteralsAlike(src, i);
      if LiteralEnd(src, i).Some? { ApostropheAligned(src, i, host); } else { LabelAligned(src, i, host); }
    }
  }

  // ---------------------------------------------------------------- any token

  /** A word that opens no raw string. */
  lemma PlainWordAligned(src: string, i: nat, host: Host)
    requires Sound(host) && i < |src| && NameChar(src[i], host) && RawOpens(src, i, host).None? && Readable(src, i, host)
    ensures Aligned(src, i, RustNext(src, i, host), [], host) && Seen(src, i, host) == []
  {
    hide Aligned, Readable, Sound, RawQuote, RawOpens, NameChar;
    NameCharIsPlain(src[i], host);
    AtFirst(src, i, "//");
    AtFirst(src, i, "/*");
    if RawQuote(src, i, host).Some? {
      RawQuoteOpens(src, i, host);
      assert false;
    }
    WordAligned(src, i, WordEnd(src, i, host), host);
  }

  lemma SlashAligned(src: string, i: nat, host: Host)
    requires i < |src| && src[i] == '/' && !At(src, i, "//") && !At(src, i, "/*") && Readable(src, i, host)
    requires i + 1 < |src| && src[i + 1] == '\'' ==> LiteralEnd(src, i + 1).Some?
    ensures Aligned(src, i, i + 1, [], host)
  {
    hide Aligned, Readable;
    if i + 1 < |src| && src[i + 1] == '\'' { LiteralIsWritten(src, i + 1); }
    ConstructAligned(src, i, host);
  }

  lemma LiteralIsWritten(src: string, i: nat)
    requires i < |src| && src[i] == '\'' && LiteralEnd(src, i).Some?
    ensures Apostrophe(src, i).text != ""
  {
    hide Newlines;
  }

  lemma SignAligned(src: string, i: nat, host: Host)
    requires Sound(host) && i < |src| && !NameChar(src[i], host) && src[i] != '"' && src[i] != '\''
    requires !At(src, i, "//") && !At(src, i, "/*") && InStepAt(src, i, host) && Readable(src, i, host)
    ensures Aligned(src, i, RustNext(src, i, host), [], host) && Seen(src, i, host) == []
  {
    hide Aligned, Readable, Misread, LiteralEnd, RawOpens;
    if src[i] == '\n' {
      NewlineAligned(src, i, host);
    } else if src[i] == '/' {
      SlashAligned(src, i, host);
    } else {
      CopiedAligned(src, i, host);
    }
  }

  lemma {:induction false} PrefixedAligned(src: string, i: nat, host: Host)
    requires Sound(host) && i < |src| && Prefixed(src, i, host) && InStepAt(src, i, host) && Readable(src, i, host)
    ensures Aligned(src, i, RustNext(src, i, host), Seen(src, i, host), host)
    decreases |src| - i, 0
  {
    hide Aligned, Readable, Sound, RawOpens, NameChar, At, RustNext, Arrives, Fresh, SomeUnspellable, Misread, LiteralEnd;
    var quote, end := RawOpens(src, i, host).value, RustNext(src, i, host);
    PrefixAligned(src, i, host);
    AlignedReads(src, i, quote, [], host);
    RawQuoteThere(src, i, host);
    BetweenAligned(src, quote, end, host);
    AlignedOn(src, i, quote, end, [], Seen(src, i, host), host);
    assert [] + Seen(src, i, host) == Seen(src, i, host);
  }

  /** The rewriter comes from the start of a token to its end, where Rust is. */
  lemma {:induction false} TokenAligned(src: string, i: nat, host: Host)
    requires Sound(host) && i < |src| && Fresh(src, i, host) && InStepAt(src, i, host) && Readable(src, i, host)
    ensures Aligned(src, i, RustNext(src, i, host), Seen(src, i, host), host)
    decreases |src| - i, 1
  {
    hide Aligned, Readable, Sound, NameChar, RawOpens, RustNext, Seen, Fresh, At, InStepAt;
    if At(src, i, "//") || At(src, i, "/*") {
      CommentAligned(src, i, host);
    } else if src[i] == '"' {
      StringAligned(src, i, host);
    } else if src[i] == '\'' {
      QuoteTokenAligned(src, i, host);
    } else if !NameChar(src[i], host) {
      SignAligned(src, i, host);
    } else if RawOpens(src, i, host).None? {
      PlainWordAligned(src, i, host);
    } else if src[i] == 'r' {
      RawAligned(src, i, host);
    } else {
      PrefixedAligned(src, i, host);
    }
  }

  /** From token to token the rewriter sees the strings seen in each. */
  lemma {:induction false} BetweenAligned(src: string, j: nat, end: nat, host: Host)
    requires Sound(host) && Fresh(src, j, host) && Arrives(src, j, end, host) && Readable(src, j, host)
    ensures Aligned(src, j, end, SeenBetween(src, j, end, host), host)
    decreases |src| - j, 2
  {
    hide Aligned, Readable, Sound, Fresh, Seen, InStepAt, RustNext;
    if j >= |src| || j == end {
      AlignedHere(src, j, host);
      if j != end { AlignedPast(src, j, j, end, [], host); }
    } else {
      var n := RustNext(src, j, host);
      TokenAligned(src, j, host);
      AfterTokenFresh(src, j, host);
      AlignedReads(src, j, n, Seen(src, j, host), host);
      BetweenAligned(src, n, end, host);
      AlignedOn(src, j, n, end, Seen(src, j, host), SeenBetween(src, n, end, host), host);
    }
  }

  // ---------------------------------------------------------------- where tokens begin

  lemma {:induction false} CommentStops(src: string, j: nat, depth: nat)
    requires 0 < j <= |src| && (depth == 0 ==> src[j - 1] == '/')
    ensures var k := CommentEnd(src, j, depth); 0 < k && (k < |src| ==> src[k - 1] == '/')
    decreases |src| - j
  {
    if depth > 0 && j < |src| {
      if At(src, j, "/*") {
        CommentStops(src, j + 2, depth + 1);
      } else if At(src, j, "*/") {
        assert src[j..j + 2][1] == src[j + 1];
        CommentStops(src, j + 2, depth - 1);
      } else {
        CommentStops(src, j + 1, depth);
      }
    }
  }

  lemma {:induction false} StringStops(src: string, j: nat)
    ensures var k := StringEnd(src, j); k <= |src| && j < |src| ==> src[k - 1] == '"' || k == |src|
    decreases |src| - j
  {
    if j < |src| && src[j] != '"' { StringStops(src, if src[j] == '\\' then j + 2 else j + 1); }
  }

  lemma LiteralStops(src: string, i: nat)
    requires i < |src| && src[i] == '\'' && LiteralEnd(src, i).Some?
    ensures var k := LiteralEnd(src, i).value; 0 < k <= |src| && src[k - 1] == '\''
  {
    hide Find;
    if src[i + 1] == '\\' {
      var close := Find(src, "'", i + 3);
      assert src[close] == src[close..close + 1][0];
    }
  }

  lemma AfterCommentFresh(src: string, i: nat, host: Host)
    requires Sound(host) && i < |src| && (At(src, i, "//") || At(src, i, "/*"))
    ensures Fresh(src, RustNext(src, i, host), host)
  {
    hide Find, CommentEnd, Sound;
    CommentOpens(src, i);
    NotInName('/', host);
    NotInName('\n', host);
    if At(src, i, "//") {
      var k := Find(src, "\n", i + 2);
      if k < |src| { assert src[k] == src[k..k + 1][0]; }
    } else {
      CommentStops(src, i + 2, 1);
    }
  }

  lemma AfterWordFresh(src: string, i: nat, host: Host)
    requires Sound(host) && i < |src| && NameChar(src[i], host)
    ensures Fresh(src, RustNext(src, i, host), host)
  {
    hide Sound, RawOpens, RawCloses, RawHashes;
    NameCharIsPlain(src[i], host);
    AtFirst(src, i, "//");
    AtFirst(src, i, "/*");
    NotInName('"', host);
    NotInName('#', host);
    if RawOpens(src, i, host).Some? { RawClosing(src, i, host); }
  }

  lemma AfterTokenFresh(src: string, i: nat, host: Host)
    requires Sound(host) && i < |src|
    ensures Fresh(src, RustNext(src, i, host), host)
  {
    hide Sound, RawOpens, StringEnd, LiteralEnd;
    if At(src, i, "//") || At(src, i, "/*") {
      AfterCommentFresh(src, i, host);
    } else if NameChar(src[i], host) {
      AfterWordFresh(src, i, host);
    } else if src[i] == '"' {
      StringStops(src, i + 1);
      NotInName('"', host);
    } else if src[i] == '\'' {
      NotInName('\'', host);
      if LiteralEnd(src, i).Some? { LiteralStops(src, i); }
    }
  }

  // ---------------------------------------------------------------- the whole source

  /** The strings the rewriter reads are those Rust does, but for raw strings with a prefix. */
  lemma SourceAligned(src: string, host: Host)
    requires Sound(host) && ReadAlike(src, host) && Readable(src, 0, host)
    ensures Strings(src, 0, host) == SeenBetween(src, 0, |src|, host) && SlashesStand(src, 0, host)
  {
    hide Sound, SeenBetween, Arrives, Readable;
    BetweenAligned(src, 0, |src|, host);
  }

  /** A raw string with a prefix is seen as at least one string. */
  lemma SeenAlike(src: string, i: nat, host: Host)
    requires Sound(host) && i < |src|
    ensures |Seen(src, i, host)| >= |RustString(src, i, host)|
    ensures Seen(src, i, host) == RustString(src, i, host) <==> (Prefixed(src, i, host) ==> Seen(src, i, host) == [[]])
  {
    hide RawOpens, RustUnits, Sound, NameChar;
    if Prefixed(src, i, host) {
      var quote := RawOpens(src, i, host).value;
      RawQuoteThere(src, i, host);
      NotInName('"', host);
      AtFirst(src, quote, "//");
      AtFirst(src, quote, "/*");
      assert Seen(src, quote, host) == [RustUnits(src, quote + 1, host)];
      assert quote < RustNext(src, i, host) by { PrefixedNext(src, i, host); }
    }
  }

  lemma PrefixedNext(src: string, i: nat, host: Host)
    requires i < |src| && Prefixed(src, i, host)
    ensures RawOpens(src, i, host).value < RustNext(src, i, host)
  {
  }

  /** All the strings seen are those of Rust exactly when such raw strings are seen as empty ones. */
  lemma {:induction false} SeenIsRustIff(src: string, i: nat, host: Host)
    requires Sound(host)
    ensures |SeenBetween(src, i, |src|, host)| >= |RustStrings(src, i, host)|
    ensures SeenBetween(src, i, |src|, host) == RustStrings(src, i, host) <==> PrefixedAreEmpty(src, i, host)
    decreases |src| - i
  {
    hide Seen, RustString, RustNext, Prefixed, Sound;
    if i < |src| {
      var n := RustNext(src, i, host);
      SeenAlike(src, i, host);
      SeenIsRustIff(src, n, host);
      var a, b := Seen(src, i, host), RustString(src, i, host);
      var s, t := SeenBetween(src, n, |src|, host), RustStrings(src, n, host);
      if a + s == b + t {
        assert |a + s| == |b + t|;
        assert (a + s)[..|a|] == a && (a + s)[|a|..] == s;
        assert (b + t)[..|b|] == b && (b + t)[|b|..] == t;
      }
    }
  }

  lemma {:induction false} SeenSpelled(src: string, i: nat, host: Host)
    requires Arrives(src, i, |src|, host) && !SomeUnspellable(RustStrings(src, i, host))
    ensures !SomeUnspellable(SeenBetween(src, i, |src|, host))
    decreases |src| - i
  {
    hide Seen, RustString, RustNext, Unspellable, InStepAt;
    if i < |src| {
      var a, rest := RustString(src, i, host), RustStrings(src, RustNext(src, i, host), host);
      assert forall units | units in a :: units in a + rest;
      assert forall units | units in rest :: units in a + rest;
      SeenSpelledHere(src, i, host);
      SeenSpelled(src, RustNext(src, i, host), host);
    }
  }

  lemma SeenSpelledHere(src: string, i: nat, host: Host)
    requires i < |src| && InStepAt(src, i, host) && !SomeUnspellable(RustString(src, i, host))
    ensures !SomeUnspellable(Seen(src, i, host))
  {
    hide RustString, SomeUnspellable, Prefixed, Arrives, Misread, LiteralEnd, RawOpens;
  }

  /** A C lexer finds in the output exactly the strings of the Rust source, in order and spelled the same
      way, raw ones as empty, if and only if none holds a bare quote, backslash or newline and every raw
      one with a prefix is empty; provided the rewriter stays in step with Rust. */
  lemma StringsAreFoundIff(src: string, host: Host)
    requires Sound(host) && Convert(src, host).Ok? && ReadAlike(src, host)
    ensures CStrings(Convert(src, host).value.text) == RustStrings(src, 0, host) <==>
            !SomeUnspellable(RustStrings(src, 0, host)) && PrefixedAreEmpty(src, 0, host)
  {
    hide PassTo, CStrings, Strings, Spellable, SlashesStand, Unspellable, Readable, Sound, Arrives, RustStrings, SeenBetween, PrefixedAreEmpty;
    PassWrites(src, START, host);
    SourceAligned(src, host);
    SeenIsRustIff(src, 0, host);
    RewrittenStringsAreFoundIff(src, host);
    FoundSpells(Convert(src, host).value.text);
    if !SomeUnspellable(RustStrings(src, 0, host)) {
      SeenSpelled(src, 0, host);
      if !Spellable(src, 0, host) { UnspellableString(src, 0, host); }
    }
  }
}
