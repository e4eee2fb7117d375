/** Turning the HTML of a book's description into Pango markup: one tolerant pass over the
    characters, with the output written so far, the tags open in it and the lists open around it. */
module RichText {
  import opened Prelude

  /** The three elements of the output: bold, italic and struck through. */
  datatype Tag = Bold | Italic | Strike

  /** An open tag and the position in the output where its opening markup starts. */
  datatype Open = Open(tag: Tag, at: nat)

  function Letter(tag: Tag): char {
    match tag
    case Bold => 'b'
    case Italic => 'i'
    case Strike => 's'
  }

  function Opening(tag: Tag): string { ['<', Letter(tag), '>'] }

  function Closing(tag: Tag): string { ['<', '/', Letter(tag), '>'] }

  // ---------------------------------------------------------------- characters

  predicate AsciiLetter(c: char) { 'a' <= c <= 'z' || 'A' <= c <= 'Z' }

  predicate Digit(c: char) { '0' <= c <= '9' }

  predicate Alphanumeric(c: char) { AsciiLetter(c) || Digit(c) }

  function Lower(c: char): char { if 'A' <= c <= 'Z' then (c as int + 32) as char else c }

  function LowerAll(s: string): string { seq(|s|, i requires 0 <= i < |s| => Lower(s[i])) }

  /** The white space HTML collapses. */
  predicate HtmlSpace(c: char) { c == ' ' || c == '\t' || c == '\r' || c == '\n' || c == 0xB as char || c == 0xC as char }

  predicate Space(c: char) { c == ' ' || c == '\t' }

  predicate Control(c: char) { c as int < 0x20 || 0x7F <= c as int < 0xA0 }

  predicate EndsWith(s: string, suffix: string) { |suffix| <= |s| && s[|s| - |suffix|..] == suffix }

  /** The output ends in white space, so no separator is needed. */
  predicate Separated(out: string) { out != "" && (Space(out[|out| - 1]) || out[|out| - 1] == '\n') }

  predicate StartsWith(s: string, prefix: string) { |prefix| <= |s| && s[..|prefix|] == prefix }

  function Find(s: string, c: char): (i: nat)
    ensures i <= |s| && (i < |s| ==> s[i] == c) && forall j :: 0 <= j < i ==> s[j] != c
  {
    if s == "" || s[0] == c then 0 else 1 + Find(s[1..], c)
  }

  function FindText(s: string, pattern: string): (i: nat)
    ensures i <= |s| && (i < |s| ==> StartsWith(s[i..], pattern))
  {
    if s == "" || StartsWith(s, pattern) then 0 else 1 + FindText(s[1..], pattern)
  }

  // ---------------------------------------------------------------- text

  function EscapeChar(c: char): string {
    if c == '&' then "&amp;" else if c == '<' then "&lt;" else if c == '>' then "&gt;" else [c]
  }

  function Escape(text: string): string { if text == "" then "" else EscapeChar(text[0]) + Escape(text[1..]) }

  /** The value of a number in that base, which may have a leading plus; nothing when it is not one
      or does not fit 32 bits. */
  function ParseU32(s: string, base: nat): Option<nat> {
    var digits := if s != "" && s[0] == '+' then s[1..] else s;
    if digits == "" then None else ParseDigits(digits, base, 0)
  }

  function DigitValue(c: char): nat {
    if Digit(c) then c as int - '0' as int
    else if 'a' <= c <= 'z' then c as int - 'a' as int + 10
    else if 'A' <= c <= 'Z' then c as int - 'A' as int + 10
    else 36
  }

  function ParseDigits(s: string, base: nat, sofar: nat): Option<nat> {
    if s == "" then Some(sofar)
    else
      var value := sofar * base + DigitValue(s[0]);
      if DigitValue(s[0]) >= base || value > 0xFFFF_FFFF then None else ParseDigits(s[1..], base, value)
  }

  /** The character of a numeric reference, unless it is none or a control character. */
  function Numbered(number: Option<nat>): Option<char> {
    if number.None? then None
    else
      var n := number.value;
      if n < 0xD800 || 0xE000 <= n < 0x11_0000 then
        var c := n as char;
        if Control(c) then None else Some(c)
      else None
  }

  function Named(name: string): Option<char> {
    if name == "amp" then Some('&') else if name == "lt" then Some('<') else if name == "gt" then Some('>')
    else if name == "quot" then Some('"') else if name == "apos" then Some('\'') else if name == "nbsp" then Some(0xA0 as char)
    else None
  }

  /** The character of the entity that starts `rest`, and how much of it that takes. */
  function DecodeEntity(rest: string): (r: Option<(char, nat)>)
    requires rest != "" && rest[0] == '&'
    ensures r.Some? ==> 0 < r.value.1 <= |rest|
  {
    var end := Find(rest, ';');
    if end == |rest| then None
    else
      var c :=
        if StartsWith(rest, "&#x") || StartsWith(rest, "&#X") then Numbered(ParseU32(rest[3..end], 16))
        else if StartsWith(rest, "&#") then Numbered(ParseU32(rest[2..end], 10))
        else Named(rest[1..end]);
      if c.Some? then Some((c.value, end + 1)) else None
  }

  /** How far an undecodable reference reaches: letters, digits and hashes. */
  function RunEnd(rest: string, i: nat): (end: nat)
    requires i <= |rest|
    ensures i <= end <= |rest|
    decreases |rest| - i
  {
    if i < |rest| && (Alphanumeric(rest[i]) || rest[i] == '#') then RunEnd(rest, i + 1) else i
  }

  /** The text that stands for an undecodable reference, and how much of the input it takes. A known
      name that only lacks its semicolon gets it. */
  function LiteralRun(rest: string): (r: (string, nat))
    requires rest != "" && rest[0] == '&'
    ensures 0 < r.1 <= |rest|
  {
    var end := RunEnd(rest, 1);
    if end < |rest| && rest[end] == ';' then (rest[..end + 1], end + 1)
    else if Named(rest[1..end]).Some? then (rest[..end] + ";", end)
    else (rest[..end], end)
  }

  /** The characters that are shown for a text without tags. */
  function Decoded(rest: string): string
    decreases |rest|
  {
    if rest == "" then ""
    else if rest[0] != '&' then [rest[0]] + Decoded(rest[1..])
    else
      match DecodeEntity(rest)
      case Some((c, taken)) => [c] + Decoded(rest[taken..])
      case None =>
        var run := LiteralRun(rest);
        run.0 + Decoded(rest[run.1..])
  }

  /** Runs of white space become one space. */
  function Collapse(text: string, inSpace: bool): string {
    if text == "" then ""
    else if HtmlSpace(text[0]) then (if inSpace then "" else " ") + Collapse(text[1..], true)
    else [text[0]] + Collapse(text[1..], false)
  }

  function PushText(out: string, text: string): string {
    var collapsed := Collapse(text, false);
    out + Escape(Decoded(if Separated(out) && StartsWith(collapsed, " ") then collapsed[1..] else collapsed))
  }

  // ---------------------------------------------------------------- breaks and markers

  function TrimEnd(s: string): (r: string)
    ensures r <= s && (r != "" ==> !Space(r[|r| - 1])) && forall i :: |r| <= i < |s| ==> Space(s[i])
  {
    if s != "" && Space(s[|s| - 1]) then TrimEnd(s[..|s| - 1]) else s
  }

  function TrimStart(s: string): (r: string)
    ensures |r| <= |s| && (r != "" ==> !Space(r[0]))
  {
    if s != "" && Space(s[0]) then TrimStart(s[1..]) else s
  }

  function PushSeparator(out: string): string { if out == "" || Separated(out) then out else out + " " }

  function ParagraphBreak(out: string): string {
    var t := TrimEnd(out);
    if t == "" || EndsWith(t, "\n\n") then t else t + "\n\n"
  }

  function LineBreak(out: string): string {
    var t := TrimEnd(out);
    if EndsWith(t, "\n\n") then t[..|t| - 1] else if EndsWith(t, "\n") then t else t + "\n"
  }

  /** The text after the last newline. */
  function AfterLastNewline(s: string): string {
    if s == "" || s[|s| - 1] == '\n' then "" else AfterLastNewline(s[..|s| - 1]) + [s[|s| - 1]]
  }

  /** The last line, without its line ending. */
  function LastLine(s: string): string {
    if EndsWith(s, "\r\n") then AfterLastNewline(s[..|s| - 2])
    else if EndsWith(s, "\n") then AfterLastNewline(s[..|s| - 1])
    else AfterLastNewline(s)
  }

  function TrimWhite(s: string): string
    decreases |s|
  {
    if s != "" && White(s[0]) then TrimWhite(s[1..])
    else if s != "" && White(s[|s| - 1]) then TrimWhite(s[..|s| - 1])
    else s
  }

  /** The number after the one that marks the last line, in 32 bits; 1 when none does. */
  function NextOrderedNumber(out: string): nat {
    var line := LastLine(out);
    var dot := FindText(line, ". ");
    if dot == |line| then 1
    else
      match ParseU32(TrimWhite(line[..dot]), 10)
      case Some(n) => (n + 1) % 0x1_0000_0000
      case None => 1
  }

  function Decimal(n: nat): (s: string)
    ensures forall i :: 0 <= i < |s| ==> Digit(s[i])
  {
    (if n < 10 then "" else Decimal(n / 10)) + [('0' as int + n % 10) as char]
  }

  function ListMarker(out: string, ordered: bool): string {
    var t := TrimEnd(out);
    var line := if t != "" && !EndsWith(t, "\n") then t + "\n" else t;
    line + (if ordered then Decimal(NextOrderedNumber(line)) + ". " else [0x2022 as char, ' '])
  }

  // ---------------------------------------------------------------- tags

  /** The position of the `>` that ends the tag at the start of `s`, outside quoted values; the
      length when there is none. */
  function TagEndFrom(s: string, i: nat, quote: Option<char>): (end: nat)
    requires i <= |s|
    ensures i <= end <= |s| && (end < |s| ==> s[end] == '>')
    decreases |s| - i
  {
    if i == |s| then i
    else if quote.Some? then TagEndFrom(s, i + 1, if s[i] == quote.value then None else quote)
    else if s[i] == '"' || s[i] == '\'' then TagEndFrom(s, i + 1, Some(s[i]))
    else if s[i] == '>' then i
    else TagEndFrom(s, i + 1, None)
  }

  function TagEnd(s: string): (end: nat)
    requires s != ""
    ensures 0 < end <= |s| && (end < |s| ==> s[end] == '>')
  {
    TagEndFrom(s, 1, None)
  }

  function TagName(inner: string): string {
    if inner == "" || !Alphanumeric(inner[0]) then "" else [Lower(inner[0])] + TagName(inner[1..])
  }

  /** What is left after a raw-text element, whose content is dropped. */
  function SkipRaw(rest: string, name: string): (r: string)
    ensures |r| <= |rest|
    decreases |rest|
  {
    var lt := Find(rest, '<');
    if lt == |rest| then ""
    else
      var after, close := rest[lt + 1..], "/" + name;
      if |after| > |close| && LowerAll(after[..|close|]) == close && (after[|close|] == '>' || after[|close|] == ' ' || after[|close|] == '/') then
        var end := TagEnd(after);
        if end == |after| then "" else after[end + 1..]
      else SkipRaw(after, name)
  }

  /** The output element for an element name. */
  function Styled(name: string): Option<Tag> {
    if name == "b" || name == "strong" then Some(Bold)
    else if name == "i" || name == "em" then Some(Italic)
    else if name == "del" then Some(Strike)
    else None
  }

  function LastIndex(open: seq<Open>, tag: Tag): (i: nat)
    ensures i <= |open| && (i < |open| ==> open[|open| - 1 - i].tag == tag)
  {
    if open == [] || open[|open| - 1].tag == tag then 0 else 1 + LastIndex(open[..|open| - 1], tag)
  }

  /** The closing markup of the innermost `count` open tags, innermost first. */
  function Closings(open: seq<Open>, count: nat): string
    requires count <= |open|
  {
    if count == 0 then "" else Closing(open[|open| - 1].tag) + Closings(open[..|open| - 1], count - 1)
  }

  /** The output without the opening markup of the open tags; the text they wrapped is kept. */
  function RolledBack(out: string, open: seq<Open>): string {
    if open == [] then out
    else
      var o := open[|open| - 1];
      if o.at + 3 <= |out| then RolledBack(out[..o.at], open[..|open| - 1]) + out[o.at + 3..] else out
  }

  /** The pass: what is written, the tags open in it, the lists open around it (true when ordered),
      and what is still to be read. */
  datatype Pass = Pass(out: string, open: seq<Open>, lists: seq<bool>, rest: string)

  function OpenTag(p: Pass, tag: Tag): Pass { p.(out := p.out + Opening(tag), open := p.open + [Open(tag, |p.out|)]) }

  /** Closes the tag and whatever was opened inside it; without an open one, the nesting is beyond
      repair and every open tag is rolled back. */
  function CloseTag(p: Pass, tag: Tag): Pass {
    var inner := LastIndex(p.open, tag);
    if inner < |p.open| then p.(out := p.out + Closings(p.open, inner + 1), open := p.open[..|p.open| - inner - 1])
    else p.(out := RolledBack(p.out, p.open), open := [])
  }

  function CloseElement(p: Pass, name: string): Pass {
    if name == "p" then p.(out := ParagraphBreak(p.out))
    else if Styled(name).Some? then CloseTag(p, Styled(name).value)
    else if name == "li" then p
    else if name == "ul" || name == "ol" then p.(lists := if p.lists == [] then [] else p.lists[..|p.lists| - 1])
    else p.(out := PushSeparator(p.out))
  }

  function OpenElement(p: Pass, name: string): (q: Pass)
    ensures |q.rest| <= |p.rest|
  {
    if name == "br" then p.(out := LineBreak(p.out))
    else if name == "p" then p.(out := ParagraphBreak(p.out))
    else if name == "ul" || name == "ol" then p.(lists := p.lists + [name == "ol"])
    else if name == "li" then (if p.lists == [] then p else p.(out := ListMarker(p.out, p.lists[|p.lists| - 1])))
    else if Styled(name).Some? then OpenTag(p, Styled(name).value)
    else if name == "script" || name == "style" then p.(rest := SkipRaw(p.rest, name))
    else p.(out := PushSeparator(p.out))
  }

  /** The tag that was read; `<` and `>` around anything that cannot be a tag are text. */
  function Element(p: Pass, raw: string): (q: Pass)
    ensures |q.rest| <= |p.rest|
  {
    var inner := if StartsWith(raw, "/") then raw[1..] else raw;
    if inner == "" || !AsciiLetter(inner[0]) then p.(out := PushText(p.out, "<" + raw + ">"))
    else if StartsWith(raw, "/") then CloseElement(p, TagName(inner))
    else OpenElement(p, TagName(inner))
  }

  /** One turn of the pass. */
  function Turn(p: Pass): (q: Pass)
    requires p.rest != ""
    ensures |q.rest| < |p.rest|
  {
    var lt := Find(p.rest, '<');
    if StartsWith(p.rest, "<!--") then
      var end := FindText(p.rest, "-->");
      if end == |p.rest| then p.(rest := "") else p.(out := PushSeparator(p.out), rest := p.rest[end + 3..])
    else if lt == |p.rest| then p.(out := PushText(p.out, p.rest), rest := "")
    else if lt > 0 then p.(out := PushText(p.out, p.rest[..lt]), rest := p.rest[lt..])
    else
      var end := TagEnd(p.rest);
      if end == |p.rest| then p.(out := PushText(p.out, p.rest), rest := "")
      else Element(p.(rest := p.rest[end + 1..]), p.rest[1..end])
  }

  function Scan(p: Pass): Pass
    decreases |p.rest|
  {
    if p.rest == "" then p else Scan(Turn(p))
  }

  /** At most two newlines in a row. */
  function CollapseNewlines(s: string, run: nat): string {
    if s == "" then ""
    else if s[0] == '\n' then (if run < 2 then "\n" else "") + CollapseNewlines(s[1..], run + 1)
    else [s[0]] + CollapseNewlines(s[1..], 0)
  }

  function Finish(out: string): string {
    var t := TrimEnd(TrimStart(CollapseNewlines(out, 0)));
    if EndsWith(t, "\n\n") then t[..|t| - 2] else t
  }

  function HtmlToPango(html: string): string {
    var p := Scan(Pass("", [], [], html));
    Finish(p.out + Closings(p.open, |p.open|))
  }
}
