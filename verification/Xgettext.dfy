/** The rewriter that lets a C string extractor read Rust source: one left-to-right pass over the
    characters, which swallows the newlines inside strings and gives them back at the next one. */
module Xgettext {
  import opened Prelude

  /** What the host language answers: whether a character may continue a name, and the character a
      hexadecimal code point names, if it names one. */
  datatype Host = Host(isAlnum: char -> bool, codePoint: string -> Option<char>)

  datatype LexError = UnclosedEscape(at: nat) | BadEscape(at: nat)

  /** A construct that was read: what is written for it, where reading goes on, the newlines held
      back to be written later, those dropped for good, and those written that were not read. */
  datatype Scan = Scan(text: string, next: nat, held: nat, lost: nat, gained: nat)

  /** A whole rewriting. */
  datatype Output = Output(text: string, lost: nat, gained: nat)

  function Newlines(s: string): nat {
    if s == [] then 0 else (if s[0] == '\n' then 1 else 0) + Newlines(s[1..])
  }

  function Repeat(count: nat): string { if count == 0 then "" else "\n" + Repeat(count - 1) }

  predicate At(src: string, i: nat, pattern: string) { i + |pattern| <= |src| && src[i..i + |pattern|] == pattern }

  /** The first place from `i` on where `pattern` is found, or the length. */
  function Find(src: string, pattern: string, i: nat): (k: nat)
    requires i <= |src| && pattern != []
    ensures i <= k <= |src| && (k < |src| ==> At(src, k, pattern))
    decreases |src| - i
  {
    if i == |src| || At(src, i, pattern) then i else Find(src, pattern, i + 1)
  }

  // ---------------------------------------------------------------- one construct

  /** Up to the end of the line; a backslash there would splice the next line into the comment. */
  function LineComment(src: string, i: nat): (r: Scan)
    requires At(src, i, "//")
    ensures i < r.next
  {
    var end := Find(src, "\n", i + 2);
    Scan(src[i..end] + (if src[end - 1] == '\\' then " " else ""), end, 0, 0, 0)
  }

  /** The rest of a block comment of which `depth` levels are open: nested markers become blanks. */
  function BlockComment(src: string, j: nat, depth: nat): (r: Scan)
    requires j <= |src|
    ensures j <= r.next <= |src|
    decreases |src| - j
  {
    if depth == 0 || j == |src| then Scan("", j, 0, 0, 0)
    else if At(src, j, "/*") then Before("  ", BlockComment(src, j + 2, depth + 1))
    else if At(src, j, "*/") then Before(if depth == 1 then "" else "  ", BlockComment(src, j + 2, depth - 1))
    else Before([src[j]], BlockComment(src, j + 1, depth))
  }

  function Before(text: string, scan: Scan): Scan { scan.(text := text + scan.text) }

  function Hashes(src: string, j: nat): (k: nat)
    requires j <= |src|
    ensures j <= k <= |src| && forall i :: j <= i < k ==> src[i] == '#'
    decreases |src| - j
  {
    if j < |src| && src[j] == '#' then Hashes(src, j + 1) else j
  }

  /** A raw string starts at `i`: the position of its opening quote. */
  function RawQuote(src: string, i: nat, host: Host): Option<nat>
    requires i < |src|
  {
    var afterName := i > 0 && (host.isAlnum(src[i - 1]) || src[i - 1] == '_');
    var quote := Hashes(src, i + 1);
    if src[i] == 'r' && !afterName && quote < |src| && src[quote] == '"' then Some(quote) else None
  }

  function RawString(src: string, i: nat, quote: nat): Scan
    requires i < quote < |src|
  {
    var end := ['"'] + seq(quote - i - 1, _ => '#');
    var close := Find(src, end, quote + 1);
    Scan("\"\"", close + |end|, Newlines(src[quote + 1..close]), 0, 0)
  }

  predicate Blank(c: char) { c == ' ' || c == '\t' || c == '\r' || c == '\n' }

  function SkipBlank(src: string, j: nat): (k: nat)
    requires j <= |src|
    ensures j <= k <= |src|
    decreases |src| - j
  {
    if j < |src| && Blank(src[j]) then SkipBlank(src, j + 1) else j
  }

  /** What one character, or one escape, of an ordinary string becomes. */
  function StringPiece(src: string, j: nat, host: Host): (r: Result<Scan, LexError>)
    requires j < |src|
    ensures r.Ok? ==> j < r.value.next
  {
    if src[j] == '\n' then Ok(Scan("\\n", j + 1, 1, 0, 0))
    else if src[j] != '\\' then Ok(Scan([src[j]], j + 1, 0, 0, 0))
    else if j + 1 == |src| then Ok(Scan("\\", j + 2, 0, 0, 0))
    else if src[j + 1] == '\n' then
      var k := SkipBlank(src, j + 2);
      Ok(Scan("", k, 1 + Newlines(src[j + 2..k]), 0, 0))
    else if At(src, j, "\\u{") then
      var close := Find(src, "}", j + 3);
      if close == |src| then Err(UnclosedEscape(j))
      else
        match host.codePoint(src[j + 3..close])
        case None => Err(BadEscape(j))
        case Some(c) => Ok(Scan([c], close + 1, 0, Newlines(src[j..close + 1]), if c == '\n' then 1 else 0))
    else Ok(Scan([src[j], src[j + 1]], j + 2, 0, 0, 0))
  }

  function Add(first: Scan, rest: Scan): Scan {
    Scan(first.text + rest.text, rest.next, first.held + rest.held, first.lost + rest.lost, first.gained + rest.gained)
  }

  /** The rest of an ordinary string, up to its closing quote or the end of the source. */
  function StringBody(src: string, j: nat, host: Host): (r: Result<Scan, LexError>)
    ensures r.Ok? ==> j <= r.value.next
    decreases |src| - j
  {
    if j >= |src| || src[j] == '"' then Ok(Scan("", j, 0, 0, 0))
    else
      match StringPiece(src, j, host)
      case Err(error) => Err(error)
      case Ok(piece) =>
        match StringBody(src, piece.next, host)
        case Err(error) => Err(error)
        case Ok(rest) => Ok(Add(piece, rest))
  }

  /** An apostrophe: a character literal becomes 0, a lifetime or a label loses it. */
  function Apostrophe(src: string, i: nat): Scan
    requires i < |src|
  {
    if i + 1 < |src| && src[i + 1] == '\\' then
      var close := Find(src, "'", i + 2);
      if close < |src| then Scan("0", close + 1, 0, Newlines(src[i..close + 1]), 0) else Scan("", i + 1, 0, 0, 0)
    else if i + 2 < |src| && src[i + 2] == '\'' && src[i + 1] != '\n' then Scan("0", i + 3, 0, 0, 0)
    else Scan("", i + 1, 0, 0, 0)
  }

  /** The construct that starts at `i`, which is not a newline. */
  function Construct(src: string, i: nat, host: Host): (r: Result<Scan, LexError>)
    requires i < |src|
    ensures r.Ok? ==> i < r.value.next
  {
    if At(src, i, "//") then Ok(LineComment(src, i))
    else if At(src, i, "/*") then
      var body := BlockComment(src, i + 2, 1);
      Ok(body.(text := "/*" + body.text + "*/"))
    else if RawQuote(src, i, host).Some? then Ok(RawString(src, i, RawQuote(src, i, host).value))
    else if src[i] == '"' then
      match StringBody(src, i + 1, host)
      case Err(error) => Err(error)
      case Ok(body) => Ok(body.(text := ['"'] + body.text + ['"'], next := body.next + 1))
    else if src[i] == '\'' then Ok(Apostrophe(src, i))
    else Ok(Scan([src[i]], i + 1, 0, 0, 0))
  }

  /** How far the pass has come: what is written, where it reads on, and the newlines held back. */
  datatype Progress = Progress(text: string, at: nat, pending: nat, lost: nat, gained: nat)

  const START := Progress("", 0, 0, 0, 0)

  /** One turn of the pass: a newline gives back the ones held back, any other construct may hold
      back more. */
  function Advance(src: string, p: Progress, host: Host): (r: Result<Progress, LexError>)
    requires p.at < |src|
    ensures r.Ok? ==> p.at < r.value.at
  {
    if src[p.at] == '\n' then Ok(Progress(p.text + "\n" + Repeat(p.pending), p.at + 1, 0, p.lost, p.gained))
    else
      match Construct(src, p.at, host)
      case Err(error) => Err(error)
      case Ok(scan) => Ok(Progress(p.text + scan.text, scan.next, p.pending + scan.held, p.lost + scan.lost, p.gained + scan.gained))
  }

  /** The pass from `p` until it has read up to `stop`. */
  function PassTo(src: string, p: Progress, stop: nat, host: Host): Result<Progress, LexError>
    requires stop <= |src|
    decreases |src| - p.at
  {
    if p.at >= stop then Ok(p)
    else
      match Advance(src, p, host)
      case Err(error) => Err(error)
      case Ok(q) => PassTo(src, q, stop, host)
  }

  function Convert(src: string, host: Host): Result<Output, LexError> {
    match PassTo(src, START, |src|, host)
    case Err(error) => Err(error)
    case Ok(p) => Ok(Output(p.text + Repeat(p.pending), p.lost, p.gained))
  }

  // ---------------------------------------------------------------- newlines

  lemma {:induction false} NewlinesAll(a: string, b: string)
    ensures Newlines(a + b) == Newlines(a) + Newlines(b)
  {
    if a == [] {
      assert a + b == b;
    } else {
      assert (a + b)[1..] == a[1..] + b;
      NewlinesAll(a[1..], b);
    }
  }

  lemma {:induction false} NoNewlines(s: string)
    requires '\n' !in s
    ensures Newlines(s) == 0
  {
    if s != [] { NoNewlines(s[1..]); }
  }

  lemma {:induction false} RepeatNewlines(count: nat)
    ensures Newlines(Repeat(count)) == count
  {
    if count > 0 {
      NewlinesAll("\n", Repeat(count - 1));
      OneCharacter("\n");
      RepeatNewlines(count - 1);
    }
  }

  /** The part of the source from `i` to `j`, where a construct may end past the source's end. */
  function Part(src: string, i: nat, j: nat): string { if i < |src| then src[i..if i <= j <= |src| then j else |src|] else "" }

  lemma Split(src: string, i: nat, j: nat, k: nat)
    requires i <= j <= k <= |src|
    ensures src[i..k] == src[i..j] + src[j..k]
  {
  }

  lemma PartNewlines(src: string, i: nat, j: nat, k: nat)
    requires i <= j <= k
    ensures Newlines(Part(src, i, k)) == Newlines(Part(src, i, j)) + Newlines(Part(src, j, k))
  {
    if j < |src| {
      var end := if k <= |src| then k else |src|;
      Split(src, i, j, end);
      NewlinesAll(src[i..j], src[j..end]);
    }
  }

  /** Every newline a construct reads is written, held back or dropped, and nothing else is. */
  predicate Accounts(src: string, i: nat, scan: Scan) {
    i <= scan.next && Newlines(scan.text) + scan.held + scan.lost == Newlines(Part(src, i, scan.next)) + scan.gained
  }

  lemma OneNewline(src: string, i: nat)
    requires i < |src|
    ensures Newlines(Part(src, i, i + 1)) == if src[i] == '\n' then 1 else 0
  {
    assert Part(src, i, i + 1) == [src[i]];
    assert [src[i]][1..] == [];
  }

  lemma {:induction false} FindStops(src: string, c: char, i: nat)
    requires i <= |src|
    ensures c !in src[i..Find(src, [c], i)]
    decreases |src| - i
  {
    if i < |src| && !At(src, i, [c]) {
      FindStops(src, c, i + 1);
      assert src[i..i + 1] == [src[i]];
      assert src[i..Find(src, [c], i)] == [src[i]] + src[i + 1..Find(src, [c], i + 1)];
    }
  }

  lemma LineCommentAccounts(src: string, i: nat)
    requires At(src, i, "//")
    ensures Accounts(src, i, LineComment(src, i))
  {
    var scan := LineComment(src, i);
    var end := scan.next;
    FindStops(src, '\n', i + 2);
    assert src[i..end] == "//" + src[i + 2..end] by { assert src[i..i + 2] == "//"; }
    assert Part(src, i, end) == src[i..end];
    NoNewlines(src[i..end]);
    NoNewlines(scan.text);
  }

  lemma BeforeAccounts(src: string, j: nat, k: nat, text: string, scan: Scan)
    requires j <= k && Newlines(text) == Newlines(Part(src, j, k)) && Accounts(src, k, scan)
    ensures Accounts(src, j, Before(text, scan))
  {
    NewlinesAll(text, scan.text);
    PartNewlines(src, j, k, scan.next);
  }

  lemma {:induction false} BlockCommentAccounts(src: string, j: nat, depth: nat)
    requires j <= |src|
    ensures Accounts(src, j, BlockComment(src, j, depth))
    decreases |src| - j
  {
    hide Accounts, At, Newlines, Before, Part;
    if depth == 0 || j == |src| {
      NothingAccounts(src, j);
    } else if At(src, j, "/*") {
      AtInside(src, j, "/*");
      BlockCommentAccounts(src, j + 2, depth + 1);
      MarkerNewlines(src, j, "/*");
      NoNewlines("  ");
      BeforeAccounts(src, j, j + 2, "  ", BlockComment(src, j + 2, depth + 1));
    } else if At(src, j, "*/") {
      AtInside(src, j, "*/");
      BlockCommentAccounts(src, j + 2, depth - 1);
      MarkerNewlines(src, j, "*/");
      NoNewlines("  ");
      NoNewlines("");
      BeforeAccounts(src, j, j + 2, if depth == 1 then "" else "  ", BlockComment(src, j + 2, depth - 1));
    } else {
      BlockCommentAccounts(src, j + 1, depth);
      OneNewline(src, j);
      OneCharacter([src[j]]);
      BeforeAccounts(src, j, j + 1, [src[j]], BlockComment(src, j + 1, depth));
    }
  }

  lemma MarkerNewlines(src: string, j: nat, marker: string)
    requires At(src, j, marker) && '\n' !in marker
    ensures Newlines(Part(src, j, j + |marker|)) == 0
  {
    if j < |src| { assert Part(src, j, j + |marker|) == marker; }
    NoNewlines(Part(src, j, j + |marker|));
  }

  lemma RawStartNewlines(src: string, i: nat, host: Host)
    requires i < |src| && RawQuote(src, i, host).Some?
    ensures i < RawQuote(src, i, host).value && Newlines(Part(src, i, RawQuote(src, i, host).value + 1)) == 0
  {
    var start := Part(src, i, RawQuote(src, i, host).value + 1);
    forall k | 0 <= k < |start| ensures start[k] != '\n' { assert start[k] == src[i + k]; }
    NoNewlines(start);
  }

  lemma RawEndNewlines(src: string, close: nat, end: string)
    requires close <= |src| && (close < |src| ==> At(src, close, end)) && '\n' !in end
    ensures Newlines(Part(src, close, close + |end|)) == 0
  {
    if close < |src| { MarkerNewlines(src, close, end); }
  }

  lemma RawStringAccounts(src: string, i: nat, quote: nat)
    requires i < quote < |src| && Newlines(Part(src, i, quote + 1)) == 0
    ensures Accounts(src, i, RawString(src, i, quote))
  {
    hide Find, At, Newlines;
    var end := ['"'] + seq(quote - i - 1, _ => '#');
    var close := Find(src, end, quote + 1);
    RawEndNewlines(src, close, end);
    NoNewlines("\"\"");
    PartNewlines(src, i, quote + 1, close);
    PartNewlines(src, i, close, close + |end|);
    assert Part(src, quote + 1, close) == src[quote + 1..close];
  }

  lemma StringPieceAccounts(src: string, j: nat, host: Host)
    requires j < |src| && StringPiece(src, j, host).Ok?
    ensures Accounts(src, j, StringPiece(src, j, host).value)
  {
    hide Find, SkipBlank;
    var piece := StringPiece(src, j, host).value;
    OneNewline(src, j);
    NoNewlines("\\n");
    NoNewlines("\\");
    if src[j] == '\\' && j + 1 < |src| {
      PartNewlines(src, j, j + 1, j + 2);
      OneNewline(src, j + 1);
      if src[j + 1] == '\n' {
        var k := SkipBlank(src, j + 2);
        PartNewlines(src, j, j + 2, k);
        if j + 2 < |src| { assert Part(src, j + 2, k) == src[j + 2..k]; } else { assert src[j + 2..k] == ""; }
      } else if At(src, j, "\\u{") {
        assert Part(src, j, piece.next) == src[j..piece.next];
        OneCharacter(piece.text);
      } else {
        NoNewlines([src[j], src[j + 1]]);
      }
    } else {
      OneCharacter([src[j]]);
    }
  }

  lemma OneCharacter(s: string)
    requires |s| == 1
    ensures Newlines(s) == if s[0] == '\n' then 1 else 0
  {
    assert s[1..] == [];
  }

  lemma AddAccounts(src: string, j: nat, first: Scan, rest: Scan)
    requires Accounts(src, j, first) && Accounts(src, first.next, rest)
    ensures Accounts(src, j, Add(first, rest))
  {
    NewlinesAll(first.text, rest.text);
    PartNewlines(src, j, first.next, rest.next);
  }

  lemma {:induction false} StringBodyAccounts(src: string, j: nat, host: Host)
    requires StringBody(src, j, host).Ok?
    ensures Accounts(src, j, StringBody(src, j, host).value)
    decreases |src| - j
  {
    hide Accounts, StringPiece;
    if j >= |src| || src[j] == '"' {
      NothingAccounts(src, j);
    } else {
      var piece := StringPiece(src, j, host).value;
      StringPieceAccounts(src, j, host);
      StringBodyAccounts(src, piece.next, host);
      AddAccounts(src, j, piece, StringBody(src, piece.next, host).value);
    }
  }

  lemma NothingAccounts(src: string, j: nat)
    ensures Accounts(src, j, Scan("", j, 0, 0, 0))
  {
  }

  lemma ApostropheAccounts(src: string, i: nat)
    requires i < |src| && src[i] == '\''
    ensures Accounts(src, i, Apostrophe(src, i))
  {
    hide Find, At;
    OneNewline(src, i);
    NoNewlines("0");
    if i + 1 < |src| && src[i + 1] == '\\' {
      var close := Find(src, "'", i + 2);
      if close < |src| { assert Part(src, i, close + 1) == src[i..close + 1]; }
    } else if i + 2 < |src| && src[i + 2] == '\'' && src[i + 1] != '\n' {
      OneNewline(src, i + 1);
      OneNewline(src, i + 2);
      PartNewlines(src, i, i + 1, i + 3);
      PartNewlines(src, i + 1, i + 2, i + 3);
    }
  }

  lemma WrappedAccounts(src: string, i: nat, j: nat, k: nat, open: string, close: string, body: Scan)
    requires i <= j && body.next <= k && Accounts(src, j, body) && Newlines(Part(src, i, j)) == 0 && Newlines(Part(src, body.next, k)) == 0
    requires '\n' !in open && '\n' !in close
    ensures Accounts(src, i, body.(text := open + body.text + close, next := k))
  {
    NoNewlines(open);
    NoNewlines(close);
    NewlinesAll(open, body.text);
    NewlinesAll(open + body.text, close);
    PartNewlines(src, i, j, body.next);
    PartNewlines(src, i, body.next, k);
  }

  lemma ConstructAccounts(src: string, i: nat, host: Host)
    requires i < |src| && src[i] != '\n' && Construct(src, i, host).Ok?
    ensures Accounts(src, i, Construct(src, i, host).value)
  {
    hide Accounts, LineComment, BlockComment, RawString, RawQuote, StringBody, Apostrophe, Newlines;
    OneNewline(src, i);
    if At(src, i, "//") {
      LineCommentAccounts(src, i);
    } else if At(src, i, "/*") {
      BlockCommentAccounts(src, i + 2, 1);
      MarkerNewlines(src, i, "/*");
      var body := BlockComment(src, i + 2, 1);
      EmptyPart(src, body.next);
      WrappedAccounts(src, i, i + 2, body.next, "/*", "*/", body);
    } else if RawQuote(src, i, host).Some? {
      RawStartNewlines(src, i, host);
      RawQuoteInside(src, i, host);
      RawStringAccounts(src, i, RawQuote(src, i, host).value);
    } else if src[i] == '"' {
      StringBodyAccounts(src, i + 1, host);
      var body := StringBody(src, i + 1, host).value;
      StringEnds(src, i + 1, host);
      WrappedAccounts(src, i, i + 1, body.next + 1, ['"'], ['"'], body);
    } else if src[i] == '\'' {
      ApostropheAccounts(src, i);
    } else {
      CopiedAccounts(src, i);
    }
  }

  lemma EmptyPart(src: string, i: nat)
    ensures Newlines(Part(src, i, i)) == 0
  {
  }

  lemma RawQuoteInside(src: string, i: nat, host: Host)
    requires i < |src| && RawQuote(src, i, host).Some?
    ensures RawQuote(src, i, host).value < |src|
  {
  }

  lemma CopiedAccounts(src: string, i: nat)
    requires i < |src|
    ensures Accounts(src, i, Scan([src[i]], i + 1, 0, 0, 0))
  {
    assert Part(src, i, i + 1) == [src[i]];
  }

  lemma {:induction false} StringEnds(src: string, j: nat, host: Host)
    requires StringBody(src, j, host).Ok?
    ensures var end := StringBody(src, j, host).value.next; Newlines(Part(src, end, end + 1)) == 0
    decreases |src| - j
  {
    if j < |src| && src[j] != '"' {
      StringEnds(src, StringPiece(src, j, host).value.next, host);
    } else if j < |src| {
      OneNewline(src, j);
    }
  }

  // ---------------------------------------------------------------- the whole pass

  function ReadUpTo(src: string, at: nat): string { src[..if at <= |src| then at else |src|] }

  /** What was written and what is held back accounts for every newline read. */
  predicate InStep(src: string, p: Progress) {
    Newlines(p.text) + p.pending + p.lost == Newlines(ReadUpTo(src, p.at)) + p.gained
  }

  lemma AdvanceInStep(src: string, p: Progress, host: Host)
    requires p.at < |src| && InStep(src, p) && Advance(src, p, host).Ok?
    ensures InStep(src, Advance(src, p, host).value)
  {
    hide Construct;
    var q := Advance(src, p, host).value;
    assert ReadUpTo(src, q.at) == ReadUpTo(src, p.at) + Part(src, p.at, q.at);
    NewlinesAll(ReadUpTo(src, p.at), Part(src, p.at, q.at));
    if src[p.at] == '\n' {
      OneNewline(src, p.at);
      OneCharacter("\n");
      NewlinesAll(p.text, "\n");
      NewlinesAll(p.text + "\n", Repeat(p.pending));
      RepeatNewlines(p.pending);
    } else {
      ConstructAccounts(src, p.at, host);
      NewlinesAll(p.text, Construct(src, p.at, host).value.text);
    }
  }

  lemma {:induction false} PassInStep(src: string, p: Progress, stop: nat, host: Host)
    requires stop <= |src| && InStep(src, p) && PassTo(src, p, stop, host).Ok?
    ensures InStep(src, PassTo(src, p, stop, host).value) && stop <= PassTo(src, p, stop, host).value.at
    decreases |src| - p.at
  {
    hide InStep, Advance;
    if p.at < stop {
      AdvanceInStep(src, p, host);
      PassInStep(src, Advance(src, p, host).value, stop, host);
    }
  }

  // ---------------------------------------------------------------- which sources keep their lines

  /** The newlines inside the `\u{…}` escapes of a string, from `j` to its closing quote. */
  function SpannedInString(src: string, j: nat, host: Host): nat
    decreases |src| - j
  {
    if j >= |src| || src[j] == '"' || StringPiece(src, j, host).Err? then 0
    else
      var next := StringPiece(src, j, host).value.next;
      (if At(src, j, "\\u{") then Newlines(src[j..next]) else 0) + SpannedInString(src, next, host)
  }

  /** How many of those escapes name a newline. */
  function NamedInString(src: string, j: nat, host: Host): nat
    decreases |src| - j
  {
    if j >= |src| || src[j] == '"' || StringPiece(src, j, host).Err? then 0
    else
      (if At(src, j, "\\u{") && host.codePoint(src[j + 3..Find(src, "}", j + 3)]) == Some('\n') then 1 else 0)
      + NamedInString(src, StringPiece(src, j, host).value.next, host)
  }

  /** The newlines inside the character literal that starts at `i` with a backslash. */
  function SpannedInLiteral(src: string, i: nat): nat
    requires i < |src|
  {
    if At(src, i, "'\\") && Find(src, "'", i + 2) < |src| then Newlines(src[i..Find(src, "'", i + 2) + 1]) else 0
  }

  /** The newlines of the source that lie inside a `'\…'` literal or a `\u{…}` escape. */
  function SpannedLines(src: string, i: nat, host: Host): nat
    decreases |src| - i
  {
    if i >= |src| then 0
    else if src[i] == '\n' then SpannedLines(src, i + 1, host)
    else if Construct(src, i, host).Err? then 0
    else
      (if src[i] == '"' then SpannedInString(src, i + 1, host) else SpannedInLiteral(src, i))
      + SpannedLines(src, Construct(src, i, host).value.next, host)
  }

  /** How many `\u{…}` escapes of the source name a newline. */
  function NamedLines(src: string, i: nat, host: Host): nat
    decreases |src| - i
  {
    if i >= |src| then 0
    else if src[i] == '\n' then NamedLines(src, i + 1, host)
    else if Construct(src, i, host).Err? then 0
    else (if src[i] == '"' then NamedInString(src, i + 1, host) else 0) + NamedLines(src, Construct(src, i, host).value.next, host)
  }

  lemma {:induction false} StringLoses(src: string, j: nat, host: Host)
    requires StringBody(src, j, host).Ok?
    ensures StringBody(src, j, host).value.lost == SpannedInString(src, j, host)
    ensures StringBody(src, j, host).value.gained == NamedInString(src, j, host)
    decreases |src| - j
  {
    if j < |src| && src[j] != '"' {
      PieceLoses(src, j, host);
      StringLoses(src, StringPiece(src, j, host).value.next, host);
    }
  }

  lemma PieceLoses(src: string, j: nat, host: Host)
    requires j < |src| && src[j] != '"' && StringPiece(src, j, host).Ok?
    ensures var piece := StringPiece(src, j, host).value;
            && piece.lost == (if At(src, j, "\\u{") then Newlines(src[j..piece.next]) else 0)
            && piece.gained == (if At(src, j, "\\u{") && host.codePoint(src[j + 3..Find(src, "}", j + 3)]) == Some('\n') then 1 else 0)
  {
    hide SkipBlank, Newlines;
    if At(src, j, "\\u{") { assert src[j..j + 3][1] == src[j + 1] && src[j..j + 3][0] == src[j]; }
  }

  lemma ConstructLoses(src: string, i: nat, host: Host)
    requires i < |src| && Construct(src, i, host).Ok?
    ensures var scan := Construct(src, i, host).value;
            && scan.lost == (if src[i] == '"' then SpannedInString(src, i + 1, host) else SpannedInLiteral(src, i))
            && scan.gained == (if src[i] == '"' then NamedInString(src, i + 1, host) else 0)
  {
    hide StringBody, SpannedInString, NamedInString, Find, Newlines;
    AtFirst(src, i, "//");
    AtFirst(src, i, "/*");
    AtFirst(src, i, "'\\");
    if src[i] == '"' {
      StringLoses(src, i + 1, host);
    } else if At(src, i, "/*") {
      BlockCommentLoses(src, i + 2, 1);
    } else if src[i] == '\'' {
      LiteralLoses(src, i);
    }
  }

  lemma {:induction false} BlockCommentLoses(src: string, j: nat, depth: nat)
    requires j <= |src|
    ensures BlockComment(src, j, depth).lost == 0 && BlockComment(src, j, depth).gained == 0
    decreases |src| - j
  {
    hide At;
    if depth > 0 && j < |src| {
      if At(src, j, "/*") {
        AtInside(src, j, "/*");
        BlockCommentLoses(src, j + 2, depth + 1);
      } else if At(src, j, "*/") {
        AtInside(src, j, "*/");
        BlockCommentLoses(src, j + 2, depth - 1);
      } else {
        BlockCommentLoses(src, j + 1, depth);
      }
    }
  }

  lemma LiteralLoses(src: string, i: nat)
    requires i < |src| && src[i] == '\''
    ensures Apostrophe(src, i).lost == SpannedInLiteral(src, i) && Apostrophe(src, i).gained == 0
  {
    hide Find, Newlines;
    if i + 1 < |src| && src[i + 1] == '\\' { assert src[i..i + 2] == "'\\"; }
    if At(src, i, "'\\") { assert src[i..i + 2][1] == src[i + 1]; }
  }

  lemma TurnLoses(src: string, p: Progress, host: Host)
    requires p.at < |src| && Advance(src, p, host).Ok?
    ensures var q := Advance(src, p, host).value;
            && q.lost + SpannedLines(src, q.at, host) == p.lost + SpannedLines(src, p.at, host)
            && q.gained + NamedLines(src, q.at, host) == p.gained + NamedLines(src, p.at, host)
  {
    hide Construct, SpannedInString, NamedInString, SpannedInLiteral;
    if src[p.at] != '\n' { ConstructLoses(src, p.at, host); }
  }

  lemma {:induction false} PassLoses(src: string, p: Progress, stop: nat, host: Host)
    requires stop <= |src| && PassTo(src, p, stop, host).Ok?
    ensures var q := PassTo(src, p, stop, host).value;
            && q.lost + SpannedLines(src, q.at, host) == p.lost + SpannedLines(src, p.at, host)
            && q.gained + NamedLines(src, q.at, host) == p.gained + NamedLines(src, p.at, host)
    decreases |src| - p.at
  {
    hide Advance, SpannedLines, NamedLines;
    if p.at < stop {
      TurnLoses(src, p, host);
      PassLoses(src, Advance(src, p, host).value, stop, host);
    }
  }

  /** At every step of the pass, the newlines written and held back are those read, less the ones
      read inside `'\…'` literals and `\u{…}` escapes, plus the escapes read that name one. */
  lemma EveryStepAccounts(src: string, stop: nat, host: Host)
    requires stop <= |src| && PassTo(src, START, stop, host).Ok?
    ensures var p := PassTo(src, START, stop, host).value;
            Newlines(p.text) + p.pending + (SpannedLines(src, 0, host) - SpannedLines(src, p.at, host))
            == Newlines(ReadUpTo(src, p.at)) + (NamedLines(src, 0, host) - NamedLines(src, p.at, host))
  {
    hide PassTo, SpannedLines, NamedLines;
    PassInStep(src, START, stop, host);
    PassLoses(src, START, stop, host);
  }

  /** Whenever the pass comes to a newline outside every construct, nothing is held back after it: the
      output is then on the line the source is on exactly when the literals and escapes read so far
      hold as many newlines as they name. */
  lemma LinesRealignAtEveryNewline(src: string, stop: nat, host: Host)
    requires stop < |src| && src[stop] == '\n' && PassTo(src, START, stop, host).Ok? && PassTo(src, START, stop, host).value.at == stop
    ensures var q := Advance(src, PassTo(src, START, stop, host).value, host).value;
            && q.at == stop + 1 && q.pending == 0
            && (Newlines(q.text) == Newlines(src[..stop + 1]) <==>
                SpannedLines(src, 0, host) - SpannedLines(src, stop, host) == NamedLines(src, 0, host) - NamedLines(src, stop, host))
  {
    hide PassTo, SpannedLines, NamedLines;
    PassInStep(src, START, stop, host);
    PassLoses(src, START, stop, host);
    AdvanceInStep(src, PassTo(src, START, stop, host).value, host);
  }

  /** The newlines of the output are those of the source, less the ones inside `'\…'` literals and
      `\u{…}` escapes, plus the escapes that name one; so lines are kept exactly when these are as
      many. In particular, when no escape names a newline, exactly when no literal and no escape
      spans one. */
  lemma LineCountIsKeptIff(src: string, host: Host)
    requires Convert(src, host).Ok?
    ensures var o := Convert(src, host).value;
            && Newlines(o.text) + SpannedLines(src, 0, host) == Newlines(src) + NamedLines(src, 0, host)
            && (Newlines(o.text) == Newlines(src) <==> SpannedLines(src, 0, host) == NamedLines(src, 0, host))
  {
    hide PassTo, SpannedLines, NamedLines;
    PassInStep(src, START, |src|, host);
    PassLoses(src, START, |src|, host);
    var p := PassTo(src, START, |src|, host).value;
    PastTheEnd(src, p.at, host);
    assert ReadUpTo(src, p.at) == src;
    NewlinesAll(p.text, Repeat(p.pending));
    RepeatNewlines(p.pending);
  }

  lemma PastTheEnd(src: string, i: nat, host: Host)
    requires i >= |src|
    ensures SpannedLines(src, i, host) == 0 && NamedLines(src, i, host) == 0
  {
  }

  /** A source in which no `'\…'` literal and no `\u{…}` escape spans a newline and no escape names
      one: at every step what is written and held back are the newlines read, and after every newline
      outside all constructs the output is on the line the source is on, with nothing held back. */
  lemma LinesStayInStep(src: string, stop: nat, host: Host)
    requires SpannedLines(src, 0, host) == 0 && NamedLines(src, 0, host) == 0
    requires stop <= |src| && PassTo(src, START, stop, host).Ok?
    ensures var p := PassTo(src, START, stop, host).value;
            && Newlines(p.text) + p.pending == Newlines(ReadUpTo(src, p.at))
            && (p.at < |src| && src[p.at] == '\n' ==>
                  var q := Advance(src, p, host).value;
                  q.at == p.at + 1 && q.pending == 0 && Newlines(q.text) == Newlines(src[..q.at]))
  {
    hide PassTo, SpannedLines, NamedLines;
    PassInStep(src, START, stop, host);
    PassLoses(src, START, stop, host);
    var p := PassTo(src, START, stop, host).value;
    if p.at < |src| && src[p.at] == '\n' { AdvanceInStep(src, p, host); }
  }

  /** A literal that spans a newline loses a line. */
  lemma LiteralLosesALine(host: Host)
    ensures Convert("'\\\n'", host) == Ok(Output("0", 1, 0)) && Newlines("'\\\n'") == 1
  {
    var src := "'\\\n'";
    hide Find;
    assert src[2..3] == "\n";
    FindIs(src, '\'', 2, 3);
    assert src[0..4] == src == "'\\" + ("\n" + "'");
    NewlinesAll("'\\", "\n" + "'");
    NewlinesAll("\n", "'");
    NoNewlines("'\\");
    NoNewlines("'");
    OneCharacter("\n");
    hide Newlines;
    AtFirst(src, 0, "//");
    AtFirst(src, 0, "/*");
    WholeSource(src, Scan("0", 4, 0, 1, 0), host);
  }

  lemma EscapedNewline(host: Host)
    requires host.codePoint("a") == Some('\n')
    ensures StringBody("\"\\u{a}\"", 1, host) == Ok(Scan("\n", 6, 0, 0, 1))
  {
    var src := "\"\\u{a}\"";
    NoNewlines(src[1..6]);
    assert src[1..4] == "\\u{" && src[4..5] == "a";
    assert src[4..5] != "}" && src[5..6] == "}";
    assert Find(src, "}", 5) == 5;
    assert Find(src, "}", 4) == 5;
    assert StringPiece(src, 1, host) == Ok(Scan("\n", 6, 0, 0, 1));
    assert StringBody(src, 6, host) == Ok(Scan("", 6, 0, 0, 0));
    assert "\n" + "" == "\n";
  }

  /** An escape that names a newline gains one, where code points are what they are. */
  lemma {:induction false} EscapeGainsALine(host: Host)
    requires host.codePoint("a") == Some('\n')
    ensures Convert("\"\\u{a}\"", host) == Ok(Output("\"\n\"", 0, 1)) && Newlines("\"\\u{a}\"") == 0 && Newlines("\"\n\"") == 1
  {
    hide StringBody, Newlines;
    var src := "\"\\u{a}\"";
    NoNewlines(src);
    EscapedNewline(host);
    AtFirst(src, 0, "//");
    AtFirst(src, 0, "/*");
    assert ['"'] + "\n" + ['"'] == "\"\n\"";
    WholeSource(src, Scan("\"\n\"", 7, 0, 0, 1), host);
    NewlinesAll("\"", "\n\"");
    NewlinesAll("\n", "\"");
    assert "\"" + "\n\"" == "\"\n\"" && "\n" + "\"" == "\n\"";
    NoNewlines("\"");
    OneCharacter("\n");
  }

  /** A source that is a single construct. */
  lemma WholeSource(src: string, scan: Scan, host: Host)
    requires src != "" && src[0] != '\n' && Construct(src, 0, host) == Ok(scan) && scan.next == |src| && scan.held == 0
    ensures Convert(src, host) == Ok(Output(scan.text, scan.lost, scan.gained))
  {
    hide Construct;
    var p := Progress(scan.text, |src|, 0, scan.lost, scan.gained);
    assert START.text + scan.text == scan.text;
    assert Advance(src, START, host) == Ok(p);
    assert PassTo(src, p, |src|, host) == Ok(p);
    assert scan.text + Repeat(0) == scan.text;
  }

  // ---------------------------------------------------------------- what stays as it is

  /** No string, no character literal and no comment. */
  predicate Plain(src: string) {
    '"' !in src && '\'' !in src && forall i :: 0 <= i < |src| ==> !At(src, i, "//") && !At(src, i, "/*")
  }

  lemma {:induction false} PlainPass(src: string, i: nat, host: Host)
    requires Plain(src) && i <= |src|
    ensures PassTo(src, Progress(src[..i], i, 0, 0, 0), |src|, host) == Ok(Progress(src, |src|, 0, 0, 0))
    decreases |src| - i
  {
    var p := Progress(src[..i], i, 0, 0, 0);
    if i == |src| {
      assert src[..i] == src;
    } else {
      hide Advance;
      PlainPass(src, i + 1, host);
      PlainTurn(src, i, host);
    }
  }

  lemma PlainTurn(src: string, i: nat, host: Host)
    requires Plain(src) && i < |src|
    ensures Advance(src, Progress(src[..i], i, 0, 0, 0), host) == Ok(Progress(src[..i + 1], i + 1, 0, 0, 0))
  {
    hide RawQuote;
    assert src[..i + 1] == src[..i] + [src[i]];
    assert src[..i] + "\n" + Repeat(0) == src[..i] + "\n";
    assert !At(src, i, "//") && !At(src, i, "/*");
    NoRawQuote(src, i, host);
  }

  lemma NoRawQuote(src: string, i: nat, host: Host)
    requires i < |src| && '"' !in src
    ensures RawQuote(src, i, host).None?
  {
  }

  /** Source without strings, character literals and comments passes through untouched. */
  lemma PlainIsUntouched(src: string, host: Host)
    requires Plain(src)
    ensures Convert(src, host) == Ok(Output(src, 0, 0))
  {
    hide PassTo;
    PlainPass(src, 0, host);
    assert src[..0] == "" && src + Repeat(0) == src;
  }

  lemma {:induction false} VerbatimBody(src: string, j: nat, end: nat, host: Host)
    requires j <= end < |src| && src[end] == '"' && forall k :: j <= k < end ==> src[k] != '"' && src[k] != '\\' && src[k] != '\n'
    ensures StringBody(src, j, host) == Ok(Scan(src[j..end], end, 0, 0, 0))
    decreases end - j
  {
    if j < end {
      VerbatimBody(src, j + 1, end, host);
      assert StringPiece(src, j, host) == Ok(Scan([src[j]], j + 1, 0, 0, 0));
      assert src[j..end] == [src[j]] + src[j + 1..end];
    } else {
      assert src[j..end] == "";
    }
  }

  /** A string without escapes that stays on its line is written as it is: the extractor reads the
      same text as the program. */
  lemma StringIsKept(src: string, i: nat, end: nat, host: Host)
    requires i < end < |src| && src[i] == '"' && src[end] == '"'
    requires forall k :: i < k < end ==> src[k] != '"' && src[k] != '\\' && src[k] != '\n'
    ensures Construct(src, i, host) == Ok(Scan(src[i..end + 1], end + 1, 0, 0, 0))
  {
    VerbatimBody(src, i + 1, end, host);
    assert src[i..end + 1] == ['"'] + src[i + 1..end] + ['"'];
    AtFirst(src, i, "//");
    AtFirst(src, i, "/*");
  }

  lemma AtFirst(src: string, i: nat, pattern: string)
    requires pattern != []
    ensures At(src, i, pattern) ==> src[i] == pattern[0]
  {
  }

  // ---------------------------------------------------------------- character literals

  /** What may stand between the quotes of a character literal: one character, or a backslash and what
      it escapes, in which a quote can only stand alone. */
  predicate CharBody(body: string) {
    '\n' !in body
    && ((|body| == 1 && body[0] != '\'' && body[0] != '\\')
        || (|body| > 1 && body[0] == '\\' && '\'' !in body[2..] && (body[1] == '\'' ==> |body| == 2)))
  }

  lemma {:induction false} FindIs(src: string, c: char, i: nat, k: nat)
    requires i <= k < |src| && src[k] == c && c !in src[i..k]
    ensures Find(src, [c], i) == k
    decreases k - i
  {
    if i < k {
      assert src[i..k][0] == src[i];
      assert src[i..k] == [src[i]] + src[i + 1..k];
      FindIs(src, c, i + 1, k);
    } else {
      assert src[k..k + 1] == [c];
    }
  }

  lemma QuoteIsApostrophe(src: string, i: nat, host: Host)
    requires i < |src| && src[i] == '\''
    ensures Construct(src, i, host) == Ok(Apostrophe(src, i))
  {
    hide Apostrophe;
    AtFirst(src, i, "//");
    AtFirst(src, i, "/*");
  }

  /** A character literal is read whole and becomes 0, if and only if it is not the escaped quote. */
  lemma CharLiteralIsReadIff(src: string, i: nat, body: string, host: Host)
    requires CharBody(body) && At(src, i, "'" + body + "'")
    ensures Construct(src, i, host) == Ok(Scan("0", i + |body| + 2, 0, 0, 0)) <==> body != "\\'"
  {
    hide Find, Construct;
    var literal := "'" + body + "'";
    var end := i + |body| + 1;
    assert src[i] == literal[0] && src[end] == literal[|body| + 1];
    assert forall k | 0 <= k < |body| :: src[i + 1 + k] == literal[1 + k] == body[k];
    QuoteIsApostrophe(src, i, host);
    if body[0] == '\\' {
      if body[1] == '\'' {
        FindIs(src, '\'', i + 2, i + 2);
        assert body == "\\'";
      } else {
        assert src[i + 2..end] == [body[1]] + body[2..];
        FindIs(src, '\'', i + 2, end);
        assert forall k | i <= k <= end :: src[k] != '\n';
        NoNewlines(src[i..end + 1]);
      }
    }
  }

  /** What follows an escaped quote is taken for another literal, the closing quote serving as its
      opening one. */
  predicate Misread(src: string, j: nat) {
    j < |src| && if src[j] == '\\' then Find(src, "'", j + 1) < |src| else j + 1 < |src| && src[j + 1] == '\'' && src[j] != '\n'
  }

  /** The escaped quote becomes 0 in two turns of the pass, its own closing quote being dropped as if
      it began a label, if and only if what follows it is not taken for another literal. */
  lemma EscapedQuoteIsReadIff(src: string, p: Progress, host: Host)
    requires At(src, p.at, "'\\''")
    ensures Advance(src, p, host) == Ok(p.(text := p.text + "0", at := p.at + 3))
    ensures Advance(src, p.(text := p.text + "0", at := p.at + 3), host) == Ok(p.(text := p.text + "0", at := p.at + 4)) <==>
            !Misread(src, p.at + 4)
  {
    hide Find, Construct, Newlines;
    FourCharacters(src, p.at);
    assert src[p.at + 2..p.at + 2] == "";
    FindIs(src, '\'', p.at + 2, p.at + 2);
    NoNewlines(src[p.at..p.at + 3]);
    QuoteIsApostrophe(src, p.at, host);
    ClosingQuote(src, p.(text := p.text + "0", at := p.at + 3), host);
  }

  lemma FourCharacters(src: string, i: nat)
    requires At(src, i, "'\\''")
    ensures i + 4 <= |src| && src[i] == '\'' && src[i + 1] == '\\' && src[i + 2] == '\'' && src[i + 3] == '\''
    ensures '\n' !in src[i..i + 3]
  {
    var literal := src[i..i + 4];
    assert literal[0] == src[i] && literal[1] == src[i + 1] && literal[2] == src[i + 2] && literal[3] == src[i + 3];
  }

  lemma ClosingQuote(src: string, q: Progress, host: Host)
    requires q.at < |src| && src[q.at] == '\''
    ensures Advance(src, q, host) == Ok(q.(at := q.at + 1)) <==> !Misread(src, q.at + 1)
  {
    hide Find, Construct, Newlines;
    QuoteIsApostrophe(src, q.at, host);
    assert q.text + "" == q.text;
    assert q.text + "0" != q.text by { assert |q.text + "0"| == |q.text| + 1; }
  }

  const MISREAD := "'\\'','\"'"

  lemma CommaIsLiteral(host: Host)
    ensures Advance(MISREAD, START, host) == Ok(Progress("0", 3, 0, 0, 0))
    ensures Advance(MISREAD, Progress("0", 3, 0, 0, 0), host) == Ok(Progress("00", 6, 0, 0, 0))
  {
    hide Find, Construct, Newlines;
    assert MISREAD[0..4] == "'\\''";
    EscapedQuoteIsReadIff(MISREAD, START, host);
    assert "" + "0" == "0" && "0" + "0" == "00";
    QuoteIsApostrophe(MISREAD, 3, host);
  }

  lemma QuoteOpensString(host: Host)
    ensures Advance(MISREAD, Progress("00", 6, 0, 0, 0), host) == Ok(Progress("00\"'\"", 9, 0, 0, 0))
  {
    hide Find, Newlines;
    assert StringPiece(MISREAD, 7, host) == Ok(Scan("'", 8, 0, 0, 0));
    assert StringBody(MISREAD, 8, host) == Ok(Scan("", 8, 0, 0, 0));
    assert StringBody(MISREAD, 7, host) == Ok(Scan("'", 8, 0, 0, 0)) by { assert "'" + "" == "'"; }
    AtFirst(MISREAD, 6, "//");
    AtFirst(MISREAD, 6, "/*");
    assert ['"'] + "'" + ['"'] == "\"'\"" && "00" + "\"'\"" == "00\"'\"";
  }

  /** An escaped quote, a comma and a quoted double quote: the comma is taken for a literal, and the
      double quote then opens a string that swallows the rest. */
  lemma EscapedQuoteIsMisread(host: Host)
    ensures Convert("'\\'','\"'", host) == Ok(Output("00\"'\"", 0, 0))
  {
    hide Advance;
    CommaIsLiteral(host);
    QuoteOpensString(host);
    var p := Progress("00\"'\"", 9, 0, 0, 0);
    assert |MISREAD| == 8;
    assert PassTo(MISREAD, p, 8, host) == Ok(p);
    assert PassTo(MISREAD, Progress("00", 6, 0, 0, 0), 8, host) == Ok(p);
    assert PassTo(MISREAD, Progress("0", 3, 0, 0, 0), 8, host) == Ok(p);
    assert p.text + Repeat(0) == p.text;
  }

  // ---------------------------------------------------------------- the pass itself

  /** The body of a block comment, marker by marker, with the depth counted. */
  method ReadBlockComment(src: string, from: nat) returns (text: string, j: nat)
    requires from <= |src|
    ensures Scan(text, j, 0, 0, 0) == BlockComment(src, from, 1)
  {
    var depth: nat := 1;
    text, j := "", from;
    BeforeNothing(BlockComment(src, from, 1));
    while j < |src| && depth > 0
      invariant from <= j <= |src|
      invariant BlockComment(src, from, 1) == Before(text, BlockComment(src, j, depth))
      decreases |src| - j
    {
      hide Before, At;
      if At(src, j, "/*") {
        AtInside(src, j, "/*");
        BeforeTwice(text, "  ", BlockComment(src, j + 2, depth + 1));
        depth := depth + 1;
        text := text + "  ";
        j := j + 2;
      } else if At(src, j, "*/") {
        AtInside(src, j, "*/");
        BeforeTwice(text, if depth == 1 then "" else "  ", BlockComment(src, j + 2, depth - 1));
        depth := depth - 1;
        if depth > 0 {
          text := text + "  ";
        } else {
          assert text + "" == text;
        }
        j := j + 2;
      } else {
        BeforeTwice(text, [src[j]], BlockComment(src, j + 1, depth));
        text := text + [src[j]];
        j := j + 1;
      }
    }
    BlockEnds(src, j, depth);
  }

  lemma AtInside(src: string, i: nat, pattern: string)
    requires At(src, i, pattern)
    ensures i + |pattern| <= |src|
  {
  }

  lemma BeforeNothing(scan: Scan)
    ensures Before("", scan) == scan
  {
  }

  lemma BeforeTwice(a: string, b: string, scan: Scan)
    ensures Before(a, Before(b, scan)) == Before(a + b, scan)
  {
    assert a + (b + scan.text) == (a + b) + scan.text;
  }

  lemma BlockEnds(src: string, j: nat, depth: nat)
    requires j <= |src| && (j == |src| || depth == 0)
    ensures BlockComment(src, j, depth) == Scan("", j, 0, 0, 0)
  {
  }

  /** An ordinary string up to its closing quote, escape by escape. */
  method ReadString(src: string, from: nat, host: Host) returns (r: Result<Scan, LexError>)
    ensures r == StringBody(src, from, host)
  {
    var body := Scan("", from, 0, 0, 0);
    AppendedToNothing(from, StringBody(src, from, host));
    while body.next < |src| && src[body.next] != '"'
      invariant from <= body.next
      invariant StringBody(src, from, host) == Appended(body, StringBody(src, body.next, host))
      decreases |src| - body.next
    {
      hide StringPiece;
      var piece := StringPiece(src, body.next, host);
      if piece.Err? {
        return Err(piece.error);
      }
      AppendedTwice(body, piece.value, StringBody(src, piece.value.next, host));
      body := Add(body, piece.value);
    }
    assert body.text + "" == body.text;
    r := Ok(body);
  }

  function Appended(body: Scan, rest: Result<Scan, LexError>): Result<Scan, LexError> {
    if rest.Ok? then Ok(Add(body, rest.value)) else rest
  }

  lemma AppendedToNothing(from: nat, rest: Result<Scan, LexError>)
    ensures Appended(Scan("", from, 0, 0, 0), rest) == rest
  {
    if rest.Ok? { assert "" + rest.value.text == rest.value.text; }
  }

  lemma AppendedTwice(a: Scan, b: Scan, rest: Result<Scan, LexError>)
    ensures Appended(a, Appended(b, rest)) == Appended(Add(a, b), rest)
  {
    if rest.Ok? { assert a.text + (b.text + rest.value.text) == (a.text + b.text) + rest.value.text; }
  }

  /** The construct at `i`, read loop by loop. */
  method ReadConstruct(src: string, i: nat, host: Host) returns (r: Result<Scan, LexError>)
    requires i < |src|
    ensures r == Construct(src, i, host)
  {
    hide StringBody, BlockComment, LineComment, RawString, RawQuote, Apostrophe;
    if At(src, i, "//") {
      return Ok(LineComment(src, i));
    }
    if At(src, i, "/*") {
      var text, j := ReadBlockComment(src, i + 2);
      return Ok(Scan("/*" + text + "*/", j, 0, 0, 0));
    }
    var quote := RawQuote(src, i, host);
    if quote.Some? {
      RawStartNewlines(src, i, host);
      RawQuoteInside(src, i, host);
      return Ok(RawString(src, i, quote.value));
    }
    if src[i] == '"' {
      var body := ReadString(src, i + 1, host);
      match body {
        case Err(error) => return Err(error);
        case Ok(scan) => return Ok(scan.(text := ['"'] + scan.text + ['"'], next := scan.next + 1));
      }
    }
    if src[i] == '\'' {
      return Ok(Apostrophe(src, i));
    }
    return Ok(Scan([src[i]], i + 1, 0, 0, 0));
  }

  method ConvertSource(src: string, host: Host) returns (r: Result<Output, LexError>)
    ensures r == Convert(src, host)
  {
    hide Construct;
    var out := "";
    var i: nat, pending: nat, lost: nat, gained: nat := 0, 0, 0, 0;
    while i < |src|
      invariant PassTo(src, Progress(out, i, pending, lost, gained), |src|, host) == PassTo(src, START, |src|, host)
      decreases |src| - i
    {
      if src[i] == '\n' {
        out := out + "\n" + Repeat(pending);
        pending := 0;
        i := i + 1;
      } else {
        var construct := ReadConstruct(src, i, host);
        match construct {
          case Err(error) => return Err(error);
          case Ok(scan) =>
            out := out + scan.text;
            pending := pending + scan.held;
            lost, gained := lost + scan.lost, gained + scan.gained;
            i := scan.next;
        }
      }
    }
    r := Ok(Output(out + Repeat(pending), lost, gained));
  }
}
