/** Text as HTML writes it, without styling and without breaks: words with any white space between
    them, characters spelled as references, markup that is no element of the output, comments, and
    elements whose content is never shown. What it is shown as is given piece by piece, in terms of
    characters and blanks; then one turn of the pass is shown to add just that. */
module RichTextPieces {
  import opened Prelude
  import opened RichText
  import opened RichTextMeaning
  import opened RichTextTrees

  // ---------------------------------------------------------------- characters and how they are spelled

  /** One character, or run of white space, as it is spelled. `Numeric` is a reference by number, in
      decimal or in hexadecimal digits and possibly with a plus; `Unknown` one by a name that means
      nothing; `Unended` a name without its semicolon. */
  datatype Glyph =
    | Itself(c: char)
    | Blanks(blanks: string)
    | Named(name: string)
    | Numeric(number: nat, hex: bool, capital: bool, plus: bool)
    | Unknown(unknown: string)
    | Unended(run: string)

  const SPACES: string := [' ', '\t', '\r', '\n', 0xB as char, 0xC as char]

  const ENTITIES: map<string, char> := map["amp" := '&', "lt" := '<', "gt" := '>', "quot" := '"', "apos" := '\'', "nbsp" := 0xA0 as char]

  predicate NameChar(c: char) { 48 <= c as int <= 57 || 65 <= c as int <= 90 || 97 <= c as int <= 122 }

  /** A number that is a visible character: neither a control character nor half of a pair, and not past the
      last one. */
  predicate Visible(n: nat) { 0x20 <= n <= 0x7E || 0xA0 <= n <= 0xD7FF || 0xE000 <= n <= 0x10FFFF }

  /** A number in decimal, or in hexadecimal. */
  function DigitsOf(n: nat, hex: bool, capital: bool): string {
    if hex then (if n < 16 then "" else DigitsOf(n / 16, true, capital)) + [DigitOf(n % 16, capital)]
    else (if n < 10 then "" else DigitsOf(n / 10, false, capital)) + [DigitOf(n % 10, capital)]
  }

  function DigitOf(d: nat, capital: bool): char
    requires d < 16
  {
    (if capital then "0123456789ABCDEF" else "0123456789abcdef")[d]
  }

  function NumericName(g: Glyph): string
    requires g.Numeric?
  {
    "#" + (if g.hex then (if g.capital then "X" else "x") else "") + (if g.plus then "+" else "")
    + DigitsOf(g.number, g.hex, g.capital)
  }

  function Spelled(g: Glyph): string {
    match g
    case Itself(c) => [c]
    case Blanks(blanks) => blanks
    case Named(name) => "&" + (name + ";")
    case Numeric(_, _, _, _) => "&" + (NumericName(g) + ";")
    case Unknown(unknown) => "&" + (unknown + ";")
    case Unended(run) => "&" + run
  }

  /** A reference that means nothing is shown as it is spelled, and a known name gets its semicolon. */
  function ShownGlyph(g: Glyph): string {
    match g
    case Itself(c) => [c]
    case Blanks(_) => " "
    case Named(name) => if name in ENTITIES then [ENTITIES[name]] else Spelled(g)
    case Numeric(number, _, _, _) => if Visible(number) then [number as char] else Spelled(g)
    case Unknown(_) => Spelled(g)
    case Unended(run) => if run in ENTITIES then "&" + run + ";" else "&" + run
  }

  function SpelledText(gs: seq<Glyph>): string { if gs == [] then "" else Spelled(gs[0]) + SpelledText(gs[1..]) }

  function ShownText(gs: seq<Glyph>): string { if gs == [] then "" else ShownGlyph(gs[0]) + ShownText(gs[1..]) }

  predicate GlyphOk(g: Glyph) {
    match g
    case Itself(c) => c != '&' && c != '<' && c !in SPACES
    case Blanks(blanks) => blanks != "" && forall c | c in blanks :: c in SPACES
    case Named(name) => name in ENTITIES
    case Numeric(_, _, _, _) => true
    case Unknown(unknown) => unknown !in ENTITIES && forall c | c in unknown :: NameChar(c)
    case Unended(run) => forall c | c in run :: NameChar(c)
  }

  /** Runs of white space are one glyph, and what comes after a name without semicolon does not go on
      with it. */
  predicate TextOk(gs: seq<Glyph>) {
    gs == []
    || (GlyphOk(gs[0]) && TextOk(gs[1..])
        && (gs[0].Blanks? && |gs| > 1 ==> !gs[1].Blanks?)
        && (gs[0].Unended? && |gs| > 1 ==> gs[1].Itself? ==> !NameChar(gs[1].c) && gs[1].c !in "#;"))
  }

  // ---------------------------------------------------------------- references

  lemma {:induction false} DigitsOn(a: string, c: char, base: nat, sofar: nat)
    ensures ParseDigits(a + [c], base, sofar) ==
            match ParseDigits(a, base, sofar)
            case None => None
            case Some(v) => if DigitValue(c) >= base || v * base + DigitValue(c) > 0xFFFF_FFFF then None else Some(v * base + DigitValue(c))
  {
    if a == "" {
      assert a + [c] == [c] && [c][1..] == "";
    } else {
      assert (a + [c])[1..] == a[1..] + [c];
      var value := sofar * base + DigitValue(a[0]);
      if DigitValue(a[0]) < base && value <= 0xFFFF_FFFF { DigitsOn(a[1..], c, base, value); }
    }
  }

  lemma DigitIsRead(d: nat, capital: bool)
    requires d < 16
    ensures DigitValue(DigitOf(d, capital)) == d && NameChar(DigitOf(d, capital))
  {
  }

  lemma {:induction false} DigitsAreRead(n: nat, hex: bool, capital: bool)
    ensures var s := DigitsOf(n, hex, capital);
            && s != "" && (forall c | c in s :: NameChar(c))
            && ParseDigits(s, if hex then 16 else 10, 0) == if n <= 0xFFFF_FFFF then Some(n) else None
  {
    hide NameChar, DigitOf, DigitValue, ParseDigits;
    var base := if hex then 16 else 10;
    var before := if n < base then "" else DigitsOf(n / base, hex, capital);
    DigitIsRead(n % base, capital);
    if n >= base { DigitsAreRead(n / base, hex, capital); } else { NoDigits(base); }
    DigitsOn(before, DigitOf(n % base, capital), base, 0);
  }

  lemma NoDigits(base: nat)
    ensures ParseDigits("", base, 0) == Some(0)
  {
  }

  lemma NumberIsParsed(n: nat, hex: bool, capital: bool, plus: bool)
    ensures ParseU32((if plus then "+" else "") + DigitsOf(n, hex, capital), if hex then 16 else 10) == if n <= 0xFFFF_FFFF then Some(n) else None
  {
    DigitsAreRead(n, hex, capital);
    var digits := DigitsOf(n, hex, capital);
    assert digits[0] in digits;
    if plus { assert ("+" + digits)[1..] == digits; } else { assert "" + digits == digits; }
  }

  lemma VisibleIsNumbered(n: nat)
    ensures Numbered(if n <= 0xFFFF_FFFF then Some(n) else None) == if Visible(n) then Some(n as char) else None
  {
  }

  lemma {:induction false} NameEnds(name: string, rest: string)
    requires ';' !in name
    ensures Find("&" + (name + ";") + rest, ';') == |name| + 1
  {
    FindAfter("&" + name, ";" + rest, ';');
    assert "&" + (name + ";") + rest == ("&" + name) + (";" + rest);
  }

  lemma NumericParts(g: Glyph, rest: string)
    requires g.Numeric?
    ensures var s, end := Spelled(g) + rest, |NumericName(g)| + 1;
            && end < |s| && s[0] == '&' && Find(s, ';') == end
            && (g.hex ==> (if g.capital then StartsWith(s, "&#X") else StartsWith(s, "&#x")) && s[3..end] == (if g.plus then "+" else "") + DigitsOf(g.number, true, g.capital))
            && (!g.hex ==> StartsWith(s, "&#") && !StartsWith(s, "&#x") && !StartsWith(s, "&#X") && s[2..end] == (if g.plus then "+" else "") + DigitsOf(g.number, false, g.capital))
  {
    hide DigitsOf, NameChar, Find, StartsWith;
    NumericCharacters(g);
    NameEnds(NumericName(g), rest);
    var number := (if g.plus then "+" else "") + DigitsOf(g.number, g.hex, g.capital);
    var head := if g.hex then (if g.capital then "&#X" else "&#x") else "&#";
    NumericShape(g, rest);
    HeadOf(head, number, ";" + rest);
    if !g.hex {
      DecimalFirst(g.number, g.capital);
      StartIndex(head + (number + (";" + rest)), "&#x", 2);
      StartIndex(head + (number + (";" + rest)), "&#X", 2);
    }
  }

  lemma NumericShape(g: Glyph, rest: string)
    requires g.Numeric?
    ensures var number := (if g.plus then "+" else "") + DigitsOf(g.number, g.hex, g.capital);
            var head := if g.hex then (if g.capital then "&#X" else "&#x") else "&#";
            Spelled(g) + rest == head + (number + (";" + rest)) && |NumericName(g)| + 1 == |head| + |number|
  {
    hide DigitsOf;
    var number := (if g.plus then "+" else "") + DigitsOf(g.number, g.hex, g.capital);
    assert NumericName(g) == "#" + (if g.hex then (if g.capital then "X" else "x") else "") + number;
  }

  lemma HeadOf(head: string, number: string, rest: string)
    ensures var s := head + (number + rest); StartsWith(s, head) && s[|head|..|head| + |number|] == number
  {
  }

  lemma NumericCharacters(g: Glyph)
    requires g.Numeric?
    ensures forall c | c in NumericName(g) :: NameChar(c) || c == '#' || c == '+'
    ensures ';' !in NumericName(g)
  {
    hide DigitsOf, ParseDigits;
    DigitsAreRead(g.number, g.hex, g.capital);
  }

  lemma {:induction false} DecimalFirst(n: nat, capital: bool)
    ensures DigitsOf(n, false, capital) != "" && DigitsOf(n, false, capital)[0] in "0123456789"
  {
    if n >= 10 { DecimalFirst(n / 10, capital); }
  }

  /** A reference by number is decoded exactly when the number is a visible character. */
  lemma NumericDecodes(g: Glyph, rest: string)
    requires g.Numeric?
    ensures var s := Spelled(g) + rest;
            s != "" && s[0] == '&' && DecodeEntity(s) == if Visible(g.number) then Some((g.number as char, |Spelled(g)|)) else None
  {
    hide DigitsOf, ParseU32, Visible, Numbered, Find;
    NumericParts(g, rest);
    NumberIsParsed(g.number, g.hex, g.capital, g.plus);
    VisibleIsNumbered(g.number);
  }

  lemma NamedDecodes(name: string, rest: string)
    requires name in ENTITIES
    ensures var s := "&" + (name + ";") + rest; DecodeEntity(s) == Some((ENTITIES[name], |name| + 2))
  {
    hide Find;
    var s := "&" + (name + ";") + rest;
    NameEnds(name, rest);
    assert s[1..|name| + 1] == name && s[1] == name[0];
    StartIndex(s, "&#", 1);
    StartIndex(s, "&#x", 1);
    StartIndex(s, "&#X", 1);
  }

  lemma KnownNames(name: string)
    ensures RichText.Named(name) == if name in ENTITIES then Some(ENTITIES[name]) else None
    ensures name in ENTITIES ==> name != "" && forall c | c in name :: NameChar(c)
  {
  }

  lemma UnknownDecodes(unknown: string, rest: string)
    requires unknown !in ENTITIES && forall c | c in unknown :: NameChar(c)
    ensures DecodeEntity("&" + (unknown + ";") + rest) == None
  {
    hide Find;
    var s := "&" + (unknown + ";") + rest;
    NameEnds(unknown, rest);
    KnownNames(unknown);
    assert s[1..|unknown| + 1] == unknown;
    assert s[1] == (unknown + ";")[0];
    if unknown != "" { assert unknown[0] in unknown; }
    StartIndex(s, "&#", 1);
    StartIndex(s, "&#x", 1);
    StartIndex(s, "&#X", 1);
  }

  lemma UnendedDecodes(run: string, rest: string)
    requires (forall c | c in run :: NameChar(c)) && (rest != "" ==> !NameChar(rest[0]) && rest[0] !in "#;")
    ensures DecodeEntity("&" + run + rest) == None
  {
    hide Find, NameChar;
    var s := "&" + run + rest;
    var end := Find(s, ';');
    if end < |s| {
      NotInRun(run, rest, end);
      KnownNames(s[1..end]);
      StartIndex(s, "&#", 1);
      StartIndex(s, "&#x", 1);
      StartIndex(s, "&#X", 1);
    }
  }

  /** A semicolon further on makes no name of it: a character that is in no name stands before. */
  lemma NotInRun(run: string, rest: string, end: nat)
    requires (forall c | c in run :: NameChar(c)) && (rest != "" ==> !NameChar(rest[0]) && rest[0] !in "#;")
    requires var s := "&" + run + rest; end < |s| && s[end] == ';'
    ensures var s := "&" + run + rest; end > 1 && s[1] != '#' && rest != "" && rest[0] in s[1..end] && !NameChar(rest[0])
  {
    var s := "&" + run + rest;
    assert forall j | 0 <= j < |run| :: s[j + 1] == run[j] && run[j] in run;
    assert forall j | 0 <= j < |rest| :: s[|run| + 1 + j] == rest[j];
    assert end > |run| + 1;
    assert s[1..end][|run|] == rest[0];
  }

  lemma {:induction false} RunIs(s: string, i: nat, k: nat)
    requires i <= k <= |s| && (forall j | i <= j < k :: NameChar(s[j]) || s[j] == '#') && (k < |s| ==> !NameChar(s[k]) && s[k] != '#')
    ensures RunEnd(s, i) == k
    decreases k - i
  {
    if i < k { RunIs(s, i + 1, k); }
  }

  lemma LiteralDecodes(s: string)
    requires s != "" && s[0] == '&' && DecodeEntity(s).None?
    ensures Decoded(s) == LiteralRun(s).0 + Decoded(s[LiteralRun(s).1..])
  {
    hide DecodeEntity, LiteralRun;
  }

  lemma {:induction false} PlainDecodes(a: string, rest: string)
    requires '&' !in a
    ensures Decoded(a + rest) == a + Decoded(rest)
    decreases |a|
  {
    hide Decoded;
    if a == "" {
      assert a + rest == rest && "" + Decoded(rest) == Decoded(rest);
    } else {
      assert (a + rest)[1..] == a[1..] + rest;
      DecodedCharacter(a + rest);
      PlainDecodes(a[1..], rest);
      Regroup([a[0]], a[1..], Decoded(rest));
    }
  }

  /** A name that means nothing is shown with its ampersand and its semicolon. */
  lemma NameIsLiteral(name: string, rest: string)
    requires DecodeEntity("&" + (name + ";") + rest).None? && forall c | c in name :: NameChar(c) || c == '#'
    ensures Decoded("&" + (name + ";") + rest) == "&" + (name + ";") + Decoded(rest)
  {
    hide Decoded, DecodeEntity, NameChar;
    var s, k := "&" + (name + ";") + rest, |name| + 1;
    assert forall j | 1 <= j < k :: s[j] == name[j - 1] && name[j - 1] in name;
    assert s[k] == ';' && s[..k + 1] == "&" + (name + ";") && s[k + 1..] == rest;
    SemicolonEndsNames();
    RunIs(s, 1, k);
    LiteralDecodes(s);
  }

  lemma SemicolonEndsNames()
    ensures !NameChar(';') && !NameChar('+')
  {
  }

  /** A number with a plus that means nothing: the name ends before the plus. */
  lemma PlusIsLiteral(head: string, number: string, rest: string)
    requires DecodeEntity("&" + head + ("+" + number) + rest).None? && head != "" && head[0] == '#' && (forall c | c in head :: NameChar(c) || c == '#') && '&' !in number
    ensures Decoded("&" + head + ("+" + number) + rest) == "&" + head + ("+" + number) + Decoded(rest)
  {
    hide Decoded, DecodeEntity, NameChar;
    var s, k := "&" + head + ("+" + number) + rest, |head| + 1;
    assert forall j | 1 <= j < k :: s[j] == head[j - 1] && head[j - 1] in head;
    assert s == ("&" + head) + (("+" + number) + rest);
    assert s[k] == '+' && s[..k] == "&" + head && s[k..] == ("+" + number) + rest && s[1..k] == head;
    SemicolonEndsNames();
    RunIs(s, 1, k);
    KnownNames(head);
    NoHash();
    LiteralDecodes(s);
    PlainDecodes("+" + number, rest);
    Regroup("&" + head, "+" + number, Decoded(rest));
  }

  lemma NoHash()
    ensures !NameChar('#')
  {
  }

  lemma NumericShows(g: Glyph, rest: string)
    requires g.Numeric?
    ensures Decoded(Spelled(g) + rest) == ShownGlyph(g) + Decoded(rest)
  {
    hide Decoded, DecodeEntity, Spelled, Visible;
    NumericDecodes(g, rest);
    if Visible(g.number) {
      VisibleShows(g, rest);
    } else if g.plus {
      PlusShows(g, rest);
    } else {
      NoPlusShows(g, rest);
    }
  }

  lemma VisibleShows(g: Glyph, rest: string)
    requires g.Numeric? && Visible(g.number)
    ensures Decoded(Spelled(g) + rest) == [g.number as char] + Decoded(rest)
  {
    hide Decoded, DecodeEntity, Spelled;
    NumericDecodes(g, rest);
    DecodedEntity(Spelled(g) + rest, g.number as char, |Spelled(g)|);
    assert (Spelled(g) + rest)[|Spelled(g)|..] == rest;
  }

  lemma NoPlusShows(g: Glyph, rest: string)
    requires g.Numeric? && !g.plus && DecodeEntity(Spelled(g) + rest).None?
    ensures Decoded(Spelled(g) + rest) == Spelled(g) + Decoded(rest)
  {
    hide Decoded, DecodeEntity, NumericName, NameChar;
    NoPlus(g);
    NameIsLiteral(NumericName(g), rest);
  }

  lemma PlusShows(g: Glyph, rest: string)
    requires g.Numeric? && g.plus && DecodeEntity(Spelled(g) + rest).None?
    ensures Decoded(Spelled(g) + rest) == Spelled(g) + Decoded(rest)
  {
    hide Decoded, DecodeEntity, DigitsOf, NameChar;
    var head := if g.hex then (if g.capital then "#X" else "#x") else "#";
    var number := DigitsOf(g.number, g.hex, g.capital) + ";";
    assert Spelled(g) == "&" + head + ("+" + number);
    HeadCharacters(head);
    NoAmpersand(g);
    assert forall c | c in number :: c in Spelled(g)[1..];
    PlusIsLiteral(head, number, rest);
  }

  lemma HeadCharacters(head: string)
    requires head in ["#", "#x", "#X"]
    ensures forall c | c in head :: NameChar(c) || c == '#'
  {
  }

  lemma NoAmpersand(g: Glyph)
    requires g.Numeric?
    ensures '&' !in Spelled(g)[1..]
  {
    hide DigitsOf;
    NumericCharacters(g);
    assert Spelled(g)[1..] == NumericName(g) + ";";
  }

  lemma NoPlus(g: Glyph)
    requires g.Numeric? && !g.plus
    ensures forall c | c in NumericName(g) :: NameChar(c) || c == '#'
  {
    hide DigitsOf, ParseDigits;
    DigitsAreRead(g.number, g.hex, g.capital);
  }

  lemma UnendedShows(run: string, rest: string)
    requires (forall c | c in run :: NameChar(c)) && (rest != "" ==> !NameChar(rest[0]) && rest[0] !in "#;")
    ensures Decoded("&" + run + rest) == ShownGlyph(Unended(run)) + Decoded(rest)
  {
    hide Decoded, DecodeEntity, NameChar;
    UnendedDecodes(run, rest);
    var s, k := "&" + run + rest, |run| + 1;
    assert forall j | 1 <= j < k :: s[j] == run[j - 1] && run[j - 1] in run;
    assert s[..k] == "&" + run && s[k..] == rest && s[1..k] == run && (k < |s| ==> s[k] == rest[0]);
    RunIs(s, 1, k);
    KnownNames(run);
    LiteralDecodes(s);
  }

  // ---------------------------------------------------------------- text

  /** The text with its white space collapsed. */
  function Squeezed(g: Glyph): string { if g.Blanks? then " " else Spelled(g) }

  function SqueezedText(gs: seq<Glyph>): string { if gs == [] then "" else Squeezed(gs[0]) + SqueezedText(gs[1..]) }

  lemma GlyphShows(g: Glyph, rest: string)
    requires GlyphOk(g) && (g.Unended? && rest != "" ==> !NameChar(rest[0]) && rest[0] !in "#;")
    ensures Decoded(Squeezed(g) + rest) == ShownGlyph(g) + Decoded(rest)
  {
    hide Decoded, DecodeEntity, NameChar, Visible, DigitsOf;
    match g
    case Itself(c) => DecodedCharacter([c] + rest);
    case Blanks(_) => DecodedCharacter(" " + rest);
    case Named(name) =>
      NamedDecodes(name, rest);
      var s := Spelled(g) + rest;
      DecodedEntity(s, ENTITIES[name], |name| + 2);
      assert s[|name| + 2..] == rest;
    case Numeric(_, _, _, _) => NumericShows(g, rest);
    case Unknown(unknown) =>
      UnknownDecodes(unknown, rest);
      NameIsLiteral(unknown, rest);
    case Unended(run) => UnendedShows(run, rest);
  }

  lemma NextFirst(gs: seq<Glyph>)
    requires TextOk(gs) && gs != [] && gs[0].Unended?
    ensures var rest := SqueezedText(gs[1..]); rest != "" ==> !NameChar(rest[0]) && rest[0] !in "#;"
  {
    if |gs| > 1 { assert gs[1..][0] == gs[1]; }
  }

  lemma {:induction false} TextShows(gs: seq<Glyph>)
    requires TextOk(gs)
    ensures Decoded(SqueezedText(gs)) == ShownText(gs)
  {
    hide Decoded, NameChar, Squeezed, ShownGlyph, GlyphOk;
    if gs == [] {
      DecodedNothing();
    } else {
      if gs[0].Unended? { NextFirst(gs); }
      GlyphShows(gs[0], SqueezedText(gs[1..]));
      TextShows(gs[1..]);
    }
  }

  lemma {:induction false} BlanksCollapse(blanks: string, rest: string, inSpace: bool)
    requires blanks != "" && forall c | c in blanks :: c in SPACES
    ensures Collapse(blanks + rest, inSpace) == (if inSpace then "" else " ") + Collapse(rest, true)
    decreases |blanks|
  {
    assert (blanks + rest)[1..] == blanks[1..] + rest && blanks[0] in blanks;
    if |blanks| > 1 {
      BlanksCollapse(blanks[1..], rest, true);
      assert (if inSpace then "" else " ") + ("" + Collapse(rest, true)) == (if inSpace then "" else " ") + Collapse(rest, true);
    } else {
      assert blanks[1..] + rest == rest;
    }
  }

  lemma SpacesAre(c: char)
    ensures c in SPACES <==> HtmlSpace(c)
  {
  }

  /** No other glyph is spelled with white space, or with a tag. */
  lemma SolidGlyph(g: Glyph)
    requires GlyphOk(g)
    ensures Spelled(g) != "" && '<' !in Spelled(g)
    ensures !g.Blanks? ==> forall c | c in Spelled(g) :: !HtmlSpace(c)
  {
    hide DigitsOf, HtmlSpace;
    forall c ensures c in SPACES <==> HtmlSpace(c) { SpacesAre(c); }
    if g.Numeric? { NumericCharacters(g); }
    if g.Named? { KnownNames(g.name); }
    SolidNames();
  }

  lemma SolidNames()
    ensures forall c | NameChar(c) || c in "#+&;" :: c !in SPACES && c != '<'
  {
  }

  lemma {:induction false} TextCollapses(gs: seq<Glyph>, inSpace: bool)
    requires TextOk(gs) && (inSpace && gs != [] ==> !gs[0].Blanks?)
    ensures Collapse(SpelledText(gs), inSpace) == SqueezedText(gs)
  {
    hide Collapse, GlyphOk, Spelled;
    if gs == [] {
      NothingCollapses(inSpace);
    } else {
      var rest := SpelledText(gs[1..]);
      if |gs| > 1 { assert gs[1..][0] == gs[1]; }
      TextCollapses(gs[1..], gs[0].Blanks?);
      SolidGlyph(gs[0]);
      if gs[0].Blanks? {
        BlanksSpelled(gs[0]);
        BlanksCollapse(gs[0].blanks, rest, false);
      } else {
        CollapseWord(Spelled(gs[0]), rest, inSpace);
      }
    }
  }

  lemma NothingCollapses(inSpace: bool)
    ensures Collapse("", inSpace) == ""
  {
  }

  lemma BlanksSpelled(g: Glyph)
    requires GlyphOk(g) && g.Blanks?
    ensures Spelled(g) == g.blanks && g.blanks != "" && forall c | c in g.blanks :: c in SPACES
  {
  }

  // ---------------------------------------------------------------- pieces

  /** A stretch of an attribute list: outside quotes, or a quoted value, in which anything may stand. */
  datatype Part = Outside(text: string) | Value(quote: char, value: string)

  /** Text; text in angle brackets that is no tag; a comment; a tag of an element that is not rendered; a whole
      element whose content is never shown. */
  datatype Piece =
    | Words(text: seq<Glyph>)
    | Angled(text: seq<Glyph>)
    | Comment(content: string)
    | Dropped(closing: bool, name: string, attributes: seq<Part>)
    | Raw(name: string, attributes: seq<Part>, content: string, end: string, endAttributes: seq<Part>)

  /** How the text ends: in the middle of a comment, of a raw element or of a tag, if not properly. */
  datatype Tail =
    | Complete
    | OpenComment(content: string)
    | OpenRaw(name: string, attributes: seq<Part>, content: string)
    | OpenTag(text: seq<Glyph>)

  function PrintPart(part: Part): string {
    match part
    case Outside(text) => text
    case Value(quote, value) => [quote] + (value + [quote])
  }

  function PrintParts(parts: seq<Part>): string { if parts == [] then "" else PrintPart(parts[0]) + PrintParts(parts[1..]) }

  function PrintPiece(p: Piece): string {
    match p
    case Words(text) => SpelledText(text)
    case Angled(text) => "<" + (SpelledText(text) + ">")
    case Comment(content) => "<!--" + (content + "-->")
    case Dropped(closing, name, attributes) => "<" + ((if closing then "/" else "") + name + PrintParts(attributes) + ">")
    case Raw(name, attributes, content, end, endAttributes) =>
      "<" + (name + PrintParts(attributes) + ">") + (content + RawEnd(end, endAttributes))
  }

  function RawEnd(end: string, attributes: seq<Part>): string { "</" + (end + PrintParts(attributes) + ">") }

  function PrintTail(t: Tail): string {
    match t
    case Complete => ""
    case OpenComment(content) => "<!--" + content
    case OpenRaw(name, attributes, content) => "<" + (name + PrintParts(attributes) + ">") + content
    case OpenTag(text) => "<" + SpelledText(text)
  }

  function PrintPieces(ps: seq<Piece>, tail: Tail): string { if ps == [] then PrintTail(tail) else PrintPiece(ps[0]) + PrintPieces(ps[1..], tail) }

  // ---------------------------------------------------------------- what they are shown as

  predicate EndsInBlank(shown: string) { shown != "" && shown[|shown| - 1] == ' ' }

  /** What is shown after `shown` and a piece. Markup that is dropped still sets words apart, a blank next to
      another is left out, and a raw element leaves nothing at all. */
  function ShownAfter(shown: string, p: Piece): string {
    match p
    case Words(text) => shown + ShownText(if EndsInBlank(shown) && text != [] && text[0].Blanks? then text[1..] else text)
    case Angled(text) => shown + ("<" + (ShownText(text) + ">"))
    case Comment(_) => SetApart(shown)
    case Dropped(_, _, _) => SetApart(shown)
    case Raw(_, _, _, _, _) => shown
  }

  function SetApart(shown: string): string { if shown == "" || EndsInBlank(shown) then shown else shown + " " }

  function ShownTail(shown: string, t: Tail): string { if t.OpenTag? then shown + ("<" + ShownText(t.text)) else shown }

  function ShownPieces(shown: string, ps: seq<Piece>, tail: Tail): string
    decreases |ps|
  {
    if ps == [] then ShownTail(shown, tail) else ShownPieces(ShownAfter(shown, ps[0]), ps[1..], tail)
  }

  // ---------------------------------------------------------------- which pieces there are

  predicate PartOk(part: Part) {
    match part
    case Outside(text) => '>' !in text && '"' !in text && '\'' !in text
    case Value(quote, value) => (quote == '"' || quote == '\'') && quote !in value
  }

  predicate PartsOk(parts: seq<Part>) {
    (forall part | part in parts :: PartOk(part)) && (PrintParts(parts) != "" ==> !NameChar(PrintParts(parts)[0]))
  }

  predicate TagNameOk(name: string) { name != "" && !(48 <= name[0] as int <= 57) && forall c | c in name :: NameChar(c) }

  const RENDERED := {"p", "b", "strong", "i", "em", "del", "li", "ul", "ol"}

  predicate DroppedName(closing: bool, name: string) {
    TagNameOk(name) && LowerAll(name) !in RENDERED && (!closing ==> LowerAll(name) !in {"br", "script", "style"})
  }

  predicate RawName(name: string) { TagNameOk(name) && LowerAll(name) in {"script", "style"} }

  /** The end tag of the raw element stands right behind a `<`. */
  predicate EndsRaw(after: string, name: string) {
    |after| > |name| + 1 && LowerAll(after[..|name| + 1]) == "/" + LowerAll(name) && after[|name| + 1] in "> /"
  }

  predicate NoEndIn(content: string, rest: string, name: string) {
    forall i | 0 <= i < |content| && content[i] == '<' :: !EndsRaw((content + rest)[i + 1..], name)
  }

  /** Nothing that a tag begins with. */
  predicate NoTag(raw: string) {
    !StartsWith(raw, "!--") && '>' !in raw
    && var inner := if StartsWith(raw, "/") then raw[1..] else raw; inner == "" || !NameChar(inner[0]) || 48 <= inner[0] as int <= 57
  }

  predicate PieceOk(p: Piece) {
    match p
    case Words(text) => text != [] && TextOk(text)
    case Angled(text) => TextOk(text) && NoTag(SpelledText(text)) && '"' !in SpelledText(text) && '\'' !in SpelledText(text)
    case Comment(content) => forall i | 0 <= i < |content| + 4 :: !StartsWith(("<!--" + (content + "-->"))[i..], "-->")
    case Dropped(closing, name, attributes) => DroppedName(closing, name) && PartsOk(attributes)
    case Raw(name, attributes, content, end, endAttributes) =>
      && RawName(name) && PartsOk(attributes) && NoEndIn(content, RawEnd(end, endAttributes), name)
      && LowerAll(end) == LowerAll(name) && PartsOk(endAttributes) && (PrintParts(endAttributes) + ">")[0] in "> /"
  }

  predicate TailOk(t: Tail) {
    match t
    case Complete => true
    case OpenComment(content) => forall i | 0 <= i < |content| + 4 :: !StartsWith(("<!--" + content)[i..], "-->")
    case OpenRaw(name, attributes, content) => RawName(name) && PartsOk(attributes) && NoEndIn(content, "", name)
    case OpenTag(text) => TextOk(text) && '>' !in SpelledText(text) && !StartsWith(SpelledText(text), "!--")
  }

  predicate PiecesOk(ps: seq<Piece>) {
    ps == [] || (PieceOk(ps[0]) && PiecesOk(ps[1..]) && (ps[0].Words? && |ps| > 1 ==> !ps[1].Words?))
  }

  // ---------------------------------------------------------------- tags

  lemma {:induction false} OutsideScan(s: string, i: nat, k: nat)
    requires i <= k <= |s| && forall j | i <= j < k :: s[j] != '>' && s[j] != '"' && s[j] != '\''
    ensures TagEndFrom(s, i, None) == TagEndFrom(s, k, None)
    decreases k - i
  {
    if i < k { OutsideScan(s, i + 1, k); }
  }

  lemma {:induction false} ValueScan(s: string, i: nat, k: nat, quote: char)
    requires i <= k < |s| && s[k] == quote && forall j | i <= j < k :: s[j] != quote
    ensures TagEndFrom(s, i, Some(quote)) == TagEndFrom(s, k + 1, None)
    decreases k - i
  {
    if i < k { ValueScan(s, i + 1, k, quote); }
  }

  lemma OutsidePart(s: string, i: nat, text: string)
    requires i + |text| <= |s| && s[i..i + |text|] == text && '>' !in text && '"' !in text && '\'' !in text
    ensures TagEndFrom(s, i, None) == TagEndFrom(s, i + |text|, None)
  {
    hide TagEndFrom;
    assert forall j | i <= j < i + |text| :: s[j] == text[j - i] && text[j - i] in text;
    OutsideScan(s, i, i + |text|);
  }

  lemma ValuePart(s: string, i: nat, quote: char, value: string)
    requires i + |value| + 2 <= |s| && s[i] == quote && s[i + 1..i + 1 + |value|] == value && s[i + 1 + |value|] == quote
    requires (quote == '"' || quote == '\'') && quote !in value
    ensures TagEndFrom(s, i, None) == TagEndFrom(s, i + |value| + 2, None)
  {
    hide TagEndFrom;
    assert forall j | i + 1 <= j < i + 1 + |value| :: s[j] == value[j - i - 1] && value[j - i - 1] in value;
    ValueOpens(s, i, quote);
    ValueScan(s, i + 1, i + 1 + |value|, quote);
  }

  lemma PartScan(s: string, i: nat, part: Part)
    requires i + |PrintPart(part)| <= |s| && s[i..i + |PrintPart(part)|] == PrintPart(part) && PartOk(part)
    ensures TagEndFrom(s, i, None) == TagEndFrom(s, i + |PrintPart(part)|, None)
  {
    hide TagEndFrom;
    match part
    case Outside(text) => OutsidePart(s, i, text);
    case Value(quote, value) =>
      var printed := [quote] + (value + [quote]);
      var there := s[i..i + |printed|];
      assert there == printed;
      assert s[i] == there[0] && s[i + 1..i + 1 + |value|] == there[1..1 + |value|] == value && s[i + 1 + |value|] == there[1 + |value|];
      ValuePart(s, i, quote, value);
  }

  lemma ValueOpens(s: string, i: nat, quote: char)
    requires i < |s| && s[i] == quote && (quote == '"' || quote == '\'')
    ensures TagEndFrom(s, i, None) == TagEndFrom(s, i + 1, Some(quote))
  {
  }

  lemma {:induction false} PartsScan(s: string, i: nat, parts: seq<Part>)
    requires (forall part | part in parts :: PartOk(part)) && i + |PrintParts(parts)| <= |s| && s[i..i + |PrintParts(parts)|] == PrintParts(parts)
    ensures TagEndFrom(s, i, None) == TagEndFrom(s, i + |PrintParts(parts)|, None)
    decreases |parts|
  {
    hide PartOk, PrintPart, TagEndFrom;
    if parts != [] {
      var first, more := PrintPart(parts[0]), PrintParts(parts[1..]);
      assert s[i..i + |first|] == s[i..i + |first + more|][..|first|] == first;
      assert s[i + |first|..i + |first| + |more|] == s[i..i + |first + more|][|first|..] == more;
      PartScan(s, i, parts[0]);
      PartsScan(s, i + |first|, parts[1..]);
    }
  }

  /** The end of a tag whose quoted values may hold anything. */
  lemma TagEnds(head: string, parts: seq<Part>, rest: string)
    requires head != "" && '>' !in head[1..] && '"' !in head[1..] && '\'' !in head[1..] && forall part | part in parts :: PartOk(part)
    ensures var s := head + (PrintParts(parts) + (">" + rest)); TagEnd(s) == |head| + |PrintParts(parts)|
  {
    hide PrintParts, PartOk;
    var s := head + (PrintParts(parts) + (">" + rest));
    assert forall j | 1 <= j < |head| :: s[j] == head[j] && head[j] == head[1..][j - 1] && head[j] in head[1..];
    OutsideScan(s, 1, |head|);
    PartsScan(s, |head|, parts);
    assert s[|head| + |PrintParts(parts)|] == '>';
  }

  lemma {:induction false} NameIsRead(name: string, rest: string)
    requires (forall c | c in name :: NameChar(c)) && (rest != "" ==> !NameChar(rest[0]))
    ensures TagName(name + rest) == LowerAll(name)
  {
    if name == "" {
      assert name + rest == rest;
    } else {
      assert (name + rest)[1..] == name[1..] + rest && name[0] in name;
      NameIsRead(name[1..], rest);
      assert LowerAll(name) == [Lower(name[0])] + LowerAll(name[1..]);
    }
  }

  lemma NameHasNoQuote(name: string)
    requires TagNameOk(name)
    ensures '>' !in name && '"' !in name && '\'' !in name && AsciiLetter(name[0]) && name[0] != '!' && name[0] != '/'
  {
    assert name[0] in name;
  }

  /** A turn that starts at a tag. */
  lemma PartsTurn(p: Pass, closing: bool, name: string, parts: seq<Part>, rest: string)
    requires TagNameOk(name) && PartsOk(parts) && p.rest == "<" + ((if closing then "/" else "") + name + PrintParts(parts) + ">") + rest
    ensures Turn(p) == if closing then CloseElement(p.(rest := rest), LowerAll(name)) else OpenElement(p.(rest := rest), LowerAll(name))
  {
    hide CloseElement, OpenElement, PrintParts, TagEnd, NameChar, TagName, LowerAll, Find, Element;
    var slash := if closing then "/" else "";
    var raw, head := slash + name + PrintParts(parts), "<" + (slash + name);
    NameHasNoQuote(name);
    assert p.rest == head + (PrintParts(parts) + (">" + rest));
    TagEnds(head, parts, rest);
    var s, k := p.rest, |raw| + 1;
    assert s[1..k] == raw && s[k + 1..] == rest && s[0] == '<' && s[1] == raw[0] && raw[0] == (slash + name)[0];
    FirstIs(s, '<');
    StartIndex(s, "<!--", 1);
    ElementRead(p.(rest := rest), closing, name, parts);
  }

  lemma ElementRead(p: Pass, closing: bool, name: string, parts: seq<Part>)
    requires TagNameOk(name) && PartsOk(parts)
    ensures Element(p, (if closing then "/" else "") + name + PrintParts(parts)) ==
            if closing then CloseElement(p, LowerAll(name)) else OpenElement(p, LowerAll(name))
  {
    hide CloseElement, OpenElement, PrintParts, NameChar, TagName, LowerAll;
    var raw := (if closing then "/" else "") + name + PrintParts(parts);
    NameHasNoQuote(name);
    NameIsRead(name, PrintParts(parts));
    StartIndex(raw, "/", 0);
    if closing { assert raw[..1] == "/" && raw[1..] == name + PrintParts(parts); } else { assert raw == name + PrintParts(parts); }
  }

  lemma FirstIs(s: string, c: char)
    requires s != "" && s[0] == c
    ensures Find(s, c) == 0
  {
  }

  // ---------------------------------------------------------------- the text written so far

  lemma BlankLast(shown: string)
    requires BlanksOnly(shown)
    ensures Separated(Escape(shown)) <==> EndsInBlank(shown)
    ensures Escape(shown) == "" <==> shown == ""
  {
    hide BlanksOnly, HtmlSpace;
    if shown != "" {
      assert shown == shown[..|shown| - 1] + [shown[|shown| - 1]];
      EscapeLast(shown[..|shown| - 1], shown[|shown| - 1]);
      LastEscaped(shown[..|shown| - 1], shown[|shown| - 1]);
      NoNewlineEnds(shown);
    }
  }

  lemma NoNewlineEnds(shown: string)
    requires BlanksOnly(shown) && shown != ""
    ensures EscapeChar(shown[|shown| - 1])[|EscapeChar(shown[|shown| - 1])| - 1] != '\n'
  {
    assert shown[|shown| - 1] in shown;
  }

  lemma SeparatorShown(shown: string)
    requires BlanksOnly(shown)
    ensures PushSeparator(Escape(shown)) == Escape(SetApart(shown)) && BlanksOnly(SetApart(shown))
  {
    hide Separated;
    BlankLast(shown);
    EscapeLast(shown, ' ');
  }

  lemma {:induction false} ShownBlanks(gs: seq<Glyph>)
    requires TextOk(gs)
    ensures BlanksOnly(ShownText(gs))
  {
    hide BlanksOnly, ShownGlyph, GlyphOk;
    if gs != [] {
      GlyphBlanks(gs[0]);
      ShownBlanks(gs[1..]);
      BlanksAll(ShownGlyph(gs[0]), ShownText(gs[1..]));
    } else {
      NoBlanks();
    }
  }

  lemma NoBlanks()
    ensures BlanksOnly("")
  {
  }

  lemma BlanksAll(a: string, b: string)
    requires BlanksOnly(a) && BlanksOnly(b)
    ensures BlanksOnly(a + b)
  {
  }

  lemma GlyphBlanks(g: Glyph)
    requires GlyphOk(g)
    ensures BlanksOnly(ShownGlyph(g))
  {
    hide DigitsOf, HtmlSpace;
    SolidGlyph(g);
    forall c ensures c in SPACES <==> HtmlSpace(c) { SpacesAre(c); }
    if g.Unended? { SolidNames(); }
  }

  lemma FirstGlyph(gs: seq<Glyph>)
    requires TextOk(gs)
    ensures StartsWith(SqueezedText(gs), " ") <==> gs != [] && gs[0].Blanks?
    ensures gs != [] ==> SpelledText(gs) != ""
  {
    hide DigitsOf;
    if gs != [] {
      SolidGlyph(gs[0]);
      StartIndex(SqueezedText(gs), " ", 0);
      if gs[0].Blanks? { assert SqueezedText(gs)[..1] == " "; } else { assert SqueezedText(gs)[0] == Spelled(gs[0])[0] && Spelled(gs[0])[0] in Spelled(gs[0]); }
    }
  }

  lemma EscapeOn(shown: string, text: string)
    requires BlanksOnly(shown) && BlanksOnly(text)
    ensures Escape(shown) + Escape(text) == Escape(shown + text) && BlanksOnly(shown + text)
  {
    EscapeAll(shown, text);
  }

  lemma WordsShown(shown: string, text: seq<Glyph>)
    requires BlanksOnly(shown) && text != [] && TextOk(text)
    ensures PushText(Escape(shown), SpelledText(text)) == Escape(ShownAfter(shown, Words(text))) && BlanksOnly(ShownAfter(shown, Words(text)))
  {
    hide Separated, BlanksOnly, Collapse, Decoded, Escape, GlyphOk;
    BlankLast(shown);
    TextCollapses(text, false);
    FirstGlyph(text);
    var kept := if EndsInBlank(shown) && text[0].Blanks? then text[1..] else text;
    TextShows(kept);
    ShownBlanks(kept);
    EscapeOn(shown, ShownText(kept));
    if text[0].Blanks? { assert SqueezedText(text)[1..] == SqueezedText(text[1..]); }
  }

  /** A bracket before a text, and perhaps one behind it. */
  lemma BracketShown(shown: string, text: seq<Glyph>, closed: bool)
    requires BlanksOnly(shown) && TextOk(text)
    ensures var end := if closed then ">" else "";
            && PushText(Escape(shown), "<" + (SpelledText(text) + end)) == Escape(shown + ("<" + (ShownText(text) + end)))
            && BlanksOnly(shown + ("<" + (ShownText(text) + end)))
  {
    hide Separated, BlanksOnly, Collapse, Decoded, Escape, GlyphOk;
    var whole := if closed then text + [Itself('>')] else text;
    var end := if closed then ">" else "";
    if closed { Enclosed(text); } else { assert SpelledText(text) + "" == SpelledText(text) && ShownText(text) + "" == ShownText(text); }
    TextCollapses(whole, false);
    TextShows(whole);
    ShownBlanks(whole);
    BracketRead(SpelledText(whole), SqueezedText(whole));
    BracketIsNoBlank(ShownText(whole));
    EscapeOn(shown, "<" + ShownText(whole));
    StartIndex("<" + SqueezedText(whole), " ", 0);
  }

  lemma BracketIsNoBlank(text: string)
    requires BlanksOnly(text)
    ensures BlanksOnly("<" + text)
  {
  }

  lemma BracketRead(spelled: string, squeezed: string)
    requires Collapse(spelled, false) == squeezed
    ensures Collapse("<" + spelled, false) == "<" + squeezed
    ensures Decoded("<" + squeezed) == "<" + Decoded(squeezed)
  {
    hide Decoded;
    assert ("<" + spelled)[1..] == spelled && ("<" + squeezed)[1..] == squeezed;
    DecodedCharacter("<" + squeezed);
  }

  lemma {:induction false} Enclosed(text: seq<Glyph>)
    requires TextOk(text)
    ensures var whole := text + [Itself('>')];
            TextOk(whole) && SpelledText(whole) == SpelledText(text) + ">" && ShownText(whole) == ShownText(text) + ">"
  {
    hide Spelled, ShownGlyph;
    var whole := text + [Itself('>')];
    if text == [] {
      assert whole[1..] == [];
      BracketSpelled();
      assert ">" + "" == ">" && "" + ">" == ">";
    } else {
      Enclosed(text[1..]);
      assert whole[1..] == text[1..] + [Itself('>')];
      assert |text| > 1 ==> whole[1] == text[1];
    }
  }

  lemma BracketSpelled()
    ensures Spelled(Itself('>')) == ">" && ShownGlyph(Itself('>')) == ">"
  {
  }

  // ---------------------------------------------------------------- one piece

  /** What a piece is followed by is the end, or begins with a bracket. */
  predicate BeginsTag(rest: string) { rest == "" || rest[0] == '<' }

  lemma {:induction false} NoBracket(text: seq<Glyph>)
    requires TextOk(text)
    ensures '<' !in SpelledText(text)
  {
    hide Spelled, GlyphOk;
    if text != [] {
      SolidGlyph(text[0]);
      NoBracket(text[1..]);
    }
  }

  lemma WordsTurn(p: Pass, shown: string, text: seq<Glyph>, rest: string)
    requires p.out == Escape(shown) && BlanksOnly(shown) && text != [] && TextOk(text) && BeginsTag(rest) && p.rest == SpelledText(text) + rest
    ensures p.rest != "" && Turn(p) == p.(out := Escape(ShownAfter(shown, Words(text))), rest := rest)
  {
    hide Escape, BlanksOnly, PushText, SpelledText, TextOk, ShownAfter, Find;
    NoBracket(text);
    FirstGlyph(text);
    WordsShown(shown, text);
    FindAfter(SpelledText(text), rest, '<');
    if rest == "" { assert p.rest == SpelledText(text); NothingFound('<'); } else { FirstIs(rest, '<'); }
    assert SpelledText(text)[0] in SpelledText(text);
    StartIndex(p.rest, "<!--", 0);
    assert p.rest[..|SpelledText(text)|] == SpelledText(text) && p.rest[|SpelledText(text)|..] == rest;
  }

  lemma NothingFound(c: char)
    ensures Find("", c) == 0
  {
  }

  lemma AngledTurn(p: Pass, shown: string, text: seq<Glyph>, rest: string)
    requires p.out == Escape(shown) && BlanksOnly(shown) && PieceOk(Angled(text)) && p.rest == PrintPiece(Angled(text)) + rest
    ensures Turn(p) == p.(out := Escape(ShownAfter(shown, Angled(text))), rest := rest)
  {
    hide Escape, BlanksOnly, PushText, SpelledText, TextOk, Find, ShownText, TagEnd, NameChar, TagName;
    var raw := SpelledText(text);
    var s, k := p.rest, |raw| + 1;
    BracketShown(shown, text, true);
    assert s == ("<" + raw) + (">" + rest);
    assert s[1..k] == raw && s[k + 1..] == rest && s[k] == '>';
    TagEndsThere(s, k);
    FirstIs(s, '<');
    NoComment(raw, ">" + rest);
    AngledIsText(p.(rest := rest), raw);
    Regroup("<", raw, ">");
  }

  lemma TagEndsThere(s: string, k: nat)
    requires 0 < k < |s| && s[k] == '>' && '>' !in s[1..k] && '"' !in s[1..k] && '\'' !in s[1..k]
    ensures TagEnd(s) == k
  {
    assert forall j | 1 <= j < k :: s[j] == s[1..k][j - 1] && s[1..k][j - 1] in s[1..k];
    OutsideScan(s, 1, k);
  }

  lemma NoComment(raw: string, rest: string)
    requires !StartsWith(raw, "!--") && '>' !in raw && (rest == "" || rest[0] == '>')
    ensures !StartsWith("<" + raw + rest, "<!--")
  {
    if StartsWith("<" + raw + rest, "<!--") { CommentBegins(raw, rest); }
  }

  lemma CommentBegins(raw: string, rest: string)
    requires StartsWith("<" + raw + rest, "<!--") && (rest == "" || rest[0] == '>')
    ensures StartsWith(raw, "!--")
  {
    var s := "<" + raw + rest;
    assert s[..4] == "<!--" && s[1] == '!' && s[2] == '-' && s[3] == '-';
    assert forall j | 0 <= j < |raw| :: s[j + 1] == raw[j];
    assert |raw| + 1 < |s| ==> s[|raw| + 1] == '>';
    assert |raw| >= 3;
    assert raw[..3] == "!--";
  }

  lemma AngledIsText(p: Pass, raw: string)
    requires NoTag(raw)
    ensures Element(p, raw) == p.(out := PushText(p.out, "<" + raw + ">"))
  {
    hide PushText, CloseElement, OpenElement;
  }

  lemma {:induction false} FoundAt(s: string, pattern: string, k: nat)
    requires k < |s| && StartsWith(s[k..], pattern) && forall i | 0 <= i < k :: !StartsWith(s[i..], pattern)
    ensures FindText(s, pattern) == k
    decreases k
  {
    if k > 0 {
      assert s[0..] == s;
      assert !StartsWith(s[0..], pattern);
      forall i | 0 <= i < k - 1 ensures !StartsWith(s[1..][i..], pattern) { assert s[1..][i..] == s[i + 1..]; }
      assert s[1..][k - 1..] == s[k..];
      FoundAt(s[1..], pattern, k - 1);
    } else {
      assert s[0..] == s;
    }
  }

  lemma CommentTurn(p: Pass, shown: string, content: string, rest: string)
    requires p.out == Escape(shown) && BlanksOnly(shown) && PieceOk(Comment(content)) && p.rest == PrintPiece(Comment(content)) + rest
    ensures Turn(p) == p.(out := Escape(SetApart(shown)), rest := rest)
  {
    hide Escape, BlanksOnly, PushSeparator, FindText, SetApart;
    SeparatorShown(shown);
    CommentFound(content, rest);
    assert p.rest[..4] == "<!--" && p.rest[|content| + 7..] == rest;
  }

  lemma CommentFound(content: string, rest: string)
    requires PieceOk(Comment(content))
    ensures FindText(("<!--" + (content + "-->")) + rest, "-->") == |content| + 4
  {
    hide FindText, StartsWith;
    var printed, k := "<!--" + (content + "-->"), |content| + 4;
    var s := printed + rest;
    forall i | 0 <= i < k ensures !StartsWith(s[i..], "-->") {
      assert printed[i..] + rest == s[i..];
      SamePrefix(printed[i..], rest, "-->");
    }
    assert s[k..] == "-->" + rest;
    ArrowStarts(rest);
    FoundAt(s, "-->", k);
  }

  lemma ArrowStarts(rest: string)
    ensures StartsWith("-->" + rest, "-->")
  {
    assert ("-->" + rest)[..3] == "-->";
  }

  lemma SamePrefix(a: string, b: string, prefix: string)
    requires |a| >= |prefix|
    ensures StartsWith(a + b, prefix) <==> StartsWith(a, prefix)
  {
    assert (a + b)[..|prefix|] == a[..|prefix|];
  }

  lemma DroppedTurn(p: Pass, shown: string, closing: bool, name: string, attributes: seq<Part>, rest: string)
    requires p.out == Escape(shown) && BlanksOnly(shown) && DroppedName(closing, name) && PartsOk(attributes) && p.rest == PrintPiece(Dropped(closing, name, attributes)) + rest
    ensures Turn(p) == p.(out := Escape(SetApart(shown)), rest := rest)
  {
    hide Escape, BlanksOnly, PushSeparator, SetApart, Turn, PartsOk, TagNameOk;
    SeparatorShown(shown);
    PartsTurn(p, closing, name, attributes, rest);
    DroppedIsUnstyled(LowerAll(name));
  }

  lemma DroppedIsUnstyled(name: string)
    requires name !in RENDERED
    ensures Styled(name).None?
  {
  }

  // ---------------------------------------------------------------- raw elements

  lemma EndsRawIs(after: string, name: string)
    requires LowerAll(name) == name
    ensures var close := "/" + name;
            EndsRaw(after, name) <==>
            |after| > |close| && LowerAll(after[..|close|]) == close && (after[|close|] == '>' || after[|close|] == ' ' || after[|close|] == '/')
  {
    hide LowerAll;
    assert |"/" + name| == |name| + 1;
  }

  lemma SkipsAll(rest: string, name: string)
    requires Find(rest, '<') == |rest|
    ensures SkipRaw(rest, name) == ""
  {
  }

  lemma SkipsPast(rest: string, lt: nat, name: string)
    requires lt == Find(rest, '<') < |rest| && LowerAll(name) == name && !EndsRaw(rest[lt + 1..], name)
    ensures SkipRaw(rest, name) == SkipRaw(rest[lt + 1..], name)
  {
    hide TagEnd, LowerAll, Find, EndsRaw;
    EndsRawIs(rest[lt + 1..], name);
  }

  lemma SkipsTo(rest: string, lt: nat, name: string)
    requires lt == Find(rest, '<') < |rest| && LowerAll(name) == name && EndsRaw(rest[lt + 1..], name)
    ensures var after := rest[lt + 1..]; SkipRaw(rest, name) == if TagEnd(after) == |after| then "" else after[TagEnd(after) + 1..]
  {
    hide TagEnd, LowerAll, Find, EndsRaw;
    EndsRawIs(rest[lt + 1..], name);
  }

  lemma NoEndOn(content: string, tail: string, name: string, k: nat)
    requires NoEndIn(content, tail, name) && k <= |content|
    ensures NoEndIn(content[k..], tail, name)
  {
    hide EndsRaw;
    var rest := content[k..];
    forall i | 0 <= i < |rest| && rest[i] == '<' ensures !EndsRaw((rest + tail)[i + 1..], name) {
      assert content[k + i] == '<' && (rest + tail)[i + 1..] == (content + tail)[k + i + 1..];
    }
  }

  lemma {:induction false} RawSkipped(content: string, tail: string, name: string)
    requires NoEndIn(content, tail, name) && LowerAll(name) == name && (tail == "" || (tail[0] == '<' && EndsRaw(tail[1..], name)))
    ensures SkipRaw(content + tail, name) == if tail == "" || TagEnd(tail[1..]) == |tail| - 1 then "" else tail[1..][TagEnd(tail[1..]) + 1..]
    decreases |content|
  {
    hide EndsRaw, TagEnd, Find, SkipRaw, LowerAll;
    var s := content + tail;
    var lt := Find(s, '<');
    if lt < |content| {
      assert content[lt] == s[lt] == '<' && s[lt + 1..] == content[lt + 1..] + tail;
      SkipsPast(s, lt, name);
      NoEndOn(content, tail, name, lt + 1);
      RawSkipped(content[lt + 1..], tail, name);
    } else if tail != "" {
      assert s[|content|] == tail[0] == '<';
      assert lt == |content| && s[lt + 1..] == tail[1..];
      SkipsTo(s, lt, name);
    } else {
      SkipsAll(s, name);
    }
  }

  lemma SameLower(name: string, lower: string)
    requires lower == LowerAll(name)
    ensures LowerAll(lower) == lower && |lower| == |name|
    ensures forall after :: EndsRaw(after, name) == EndsRaw(after, lower)
  {
    assert LowerAll(lower) == lower;
  }

  lemma RawTurn(p: Pass, name: string, attributes: seq<Part>, content: string, tail: string)
    requires RawName(name) && PartsOk(attributes) && NoEndIn(content, tail, name) && (tail == "" || (tail[0] == '<' && EndsRaw(tail[1..], name)))
    requires p.rest == "<" + (name + PrintParts(attributes) + ">") + (content + tail)
    ensures Turn(p) == p.(rest := if tail == "" || TagEnd(tail[1..]) == |tail| - 1 then "" else tail[1..][TagEnd(tail[1..]) + 1..])
  {
    hide Turn, PartsOk, SkipRaw, TagEnd, EndsRaw, LowerAll, PrintParts, TagNameOk;
    var lower := LowerAll(name);
    SameLower(name, lower);
    assert "" + name + PrintParts(attributes) + ">" == name + PrintParts(attributes) + ">";
    PartsTurn(p, false, name, attributes, content + tail);
    RawSkipped(content, tail, lower);
    DroppedIsUnstyled(lower);
  }

  lemma RawEnds(name: string, end: string, attributes: seq<Part>, rest: string)
    requires RawName(name) && LowerAll(end) == LowerAll(name) && PartsOk(attributes) && (PrintParts(attributes) + ">")[0] in "> /"
    ensures var tail := RawEnd(end, attributes) + rest;
            tail[0] == '<' && EndsRaw(tail[1..], name) && TagEnd(tail[1..]) == |tail| - |rest| - 2 && tail[1..][TagEnd(tail[1..]) + 1..] == rest
  {
    hide TagEnd, PrintParts, NameChar;
    var tail := RawEnd(end, attributes) + rest;
    var after := tail[1..];
    assert |end| == |LowerAll(end)| == |name|;
    assert after == ("/" + end) + (PrintParts(attributes) + (">" + rest));
    EndLetters(name, end);
    TagEnds("/" + end, attributes, rest);
    assert after[..|name| + 1] == "/" + end;
    LowerAfterSlash(end);
    assert after[|name| + 1] == (PrintParts(attributes) + ">")[0];
  }

  lemma LowerAfterSlash(end: string)
    ensures LowerAll("/" + end) == "/" + LowerAll(end)
  {
  }

  /** A name that reads as a raw element's in lower case is made of letters. */
  lemma EndLetters(name: string, end: string)
    requires RawName(name) && LowerAll(end) == LowerAll(name)
    ensures '>' !in end && '"' !in end && '\'' !in end && ("/" + end)[1..] == end
  {
    var lower := LowerAll(end);
    assert forall c | c in lower :: 'a' <= c <= 'z' by { assert lower in ["script", "style"]; }
    forall i | 0 <= i < |end| ensures AsciiLetter(end[i]) { assert lower[i] in lower; }
  }

  lemma RawElementTurn(p: Pass, r: Piece, rest: string)
    requires r.Raw? && PieceOk(r) && p.rest == PrintPiece(r) + rest
    ensures Turn(p) == p.(rest := rest)
  {
    hide Turn, PartsOk, TagEnd, EndsRaw, LowerAll, PrintParts, TagNameOk, RawEnd;
    var end := RawEnd(r.end, r.endAttributes);
    SameLength(r.end, r.name);
    RawEnds(r.name, r.end, r.endAttributes, rest);
    EndStays(r.content, r.name, r.end, r.endAttributes, rest);
    Regroup("<" + (r.name + PrintParts(r.attributes) + ">"), r.content + end, rest);
    Regroup(r.content, end, rest);
    RawTurn(p, r.name, r.attributes, r.content, end + rest);
  }

  lemma SameLength(a: string, b: string)
    requires LowerAll(a) == LowerAll(b)
    ensures |a| == |b|
  {
    assert |LowerAll(a)| == |LowerAll(b)|;
  }

  /** What follows the end tag does not matter for where the element ends. */
  lemma EndStays(content: string, name: string, end: string, attributes: seq<Part>, rest: string)
    requires NoEndIn(content, RawEnd(end, attributes), name) && |end| == |name|
    ensures NoEndIn(content, RawEnd(end, attributes) + rest, name)
  {
    hide LowerAll, PrintParts;
    var tail := RawEnd(end, attributes);
    assert |tail| >= |name| + 3;
    forall i | 0 <= i < |content| && content[i] == '<' ensures !EndsRaw((content + (tail + rest))[i + 1..], name) {
      var after := (content + tail)[i + 1..];
      assert (content + (tail + rest))[i + 1..] == after + rest;
      assert (after + rest)[..|name| + 1] == after[..|name| + 1];
    }
  }

  // ---------------------------------------------------------------- how it ends

  lemma TailScan(p: Pass, shown: string, tail: Tail)
    requires p.out == Escape(shown) && BlanksOnly(shown) && TailOk(tail) && p.rest == PrintTail(tail)
    ensures Scan(p) == p.(out := Escape(ShownTail(shown, tail)), rest := "") && BlanksOnly(ShownTail(shown, tail))
  {
    hide Escape, BlanksOnly, Scan, Turn, TextOk, RawName, PartsOk, NoEndIn, ShownText, SpelledText;
    match tail
    case Complete => NothingLeft(p);
    case OpenComment(content) =>
      OpenCommentTurn(p, content);
      ScanStep(p);
      NothingLeft(Turn(p));
    case OpenRaw(name, attributes, content) =>
      assert content + "" == content;
      RawTurn(p, name, attributes, content, "");
      ScanStep(p);
      NothingLeft(Turn(p));
    case OpenTag(text) =>
      OpenTagTurn(p, shown, text);
      ScanStep(p);
      NothingLeft(Turn(p));
  }

  lemma OpenCommentTurn(p: Pass, content: string)
    requires TailOk(OpenComment(content)) && p.rest == PrintTail(OpenComment(content))
    ensures Turn(p) == p.(rest := "")
  {
    assert p.rest[..4] == "<!--";
    NeverFound(p.rest, "-->");
  }

  lemma {:induction false} NeverFound(s: string, pattern: string)
    requires forall i | 0 <= i < |s| :: !StartsWith(s[i..], pattern)
    ensures FindText(s, pattern) == |s|
  {
    if s != "" {
      assert s[0..] == s;
      assert !StartsWith(s[0..], pattern);
      forall i | 0 <= i < |s[1..]| ensures !StartsWith(s[1..][i..], pattern) { assert s[1..][i..] == s[i + 1..]; }
      NeverFound(s[1..], pattern);
    }
  }

  lemma OpenTagTurn(p: Pass, shown: string, text: seq<Glyph>)
    requires p.out == Escape(shown) && BlanksOnly(shown) && TailOk(OpenTag(text)) && p.rest == "<" + SpelledText(text)
    ensures Turn(p) == p.(out := Escape(shown + ("<" + ShownText(text))), rest := "") && BlanksOnly(shown + ("<" + ShownText(text)))
  {
    hide Escape, BlanksOnly, PushText, SpelledText, TextOk, Find, ShownText;
    var raw := SpelledText(text);
    BracketShown(shown, text, false);
    assert raw + "" == raw && ShownText(text) + "" == ShownText(text) && "<" + raw + "" == "<" + raw;
    FirstIs(p.rest, '<');
    NoComment(raw, "");
    assert p.rest[1..] == raw;
    NeverEnds(p.rest, 1, None);
  }

  lemma {:induction false} NeverEnds(s: string, i: nat, quote: Option<char>)
    requires i <= |s| && '>' !in s[i..]
    ensures TagEndFrom(s, i, quote) == |s|
    decreases |s| - i
  {
    if i < |s| {
      assert s[i..] == [s[i]] + s[i + 1..];
      NeverEnds(s, i + 1, if quote.Some? then (if s[i] == quote.value then None else quote) else if s[i] == '"' || s[i] == '\'' then Some(s[i]) else None);
    }
  }

  // ---------------------------------------------------------------- all the pieces

  lemma PieceTurn(p: Pass, shown: string, piece: Piece, rest: string)
    requires p.out == Escape(shown) && BlanksOnly(shown) && PieceOk(piece) && (piece.Words? ==> BeginsTag(rest)) && p.rest == PrintPiece(piece) + rest
    ensures p.rest != "" && Turn(p) == p.(out := Escape(ShownAfter(shown, piece)), rest := rest) && BlanksOnly(ShownAfter(shown, piece))
  {
    hide Escape, BlanksOnly, Turn, TextOk, PartsOk, SpelledText, ShownText, DroppedName, SetApart, BeginsTag;
    match piece
    case Words(text) =>
      WordsTurn(p, shown, text, rest);
      WordsShown(shown, text);
    case Angled(text) =>
      AngledTurn(p, shown, text, rest);
      BracketShown(shown, text, true);
    case Comment(content) =>
      CommentTurn(p, shown, content, rest);
      SeparatorShown(shown);
    case Dropped(closing, name, attributes) =>
      DroppedTurn(p, shown, closing, name, attributes, rest);
      SeparatorShown(shown);
    case Raw(_, _, _, _, _) => RawElementTurn(p, piece, rest);
  }

  lemma NextBeginsTag(ps: seq<Piece>, tail: Tail)
    requires PiecesOk(ps) && ps != [] && ps[0].Words?
    ensures BeginsTag(PrintPieces(ps[1..], tail))
  {
    hide SpelledText, PrintParts;
    if |ps| > 1 { assert ps[1..][0] == ps[1] && PrintPiece(ps[1])[0] == '<'; }
  }

  lemma {:induction false} PiecesScan(ps: seq<Piece>, p: Pass, shown: string, tail: Tail)
    requires PiecesOk(ps) && TailOk(tail) && p.out == Escape(shown) && BlanksOnly(shown) && p.rest == PrintPieces(ps, tail)
    ensures Scan(p) == p.(out := Escape(ShownPieces(shown, ps, tail)), rest := "") && BlanksOnly(ShownPieces(shown, ps, tail))
    decreases |ps|
  {
    hide Escape, BlanksOnly, Turn, Scan, PrintPiece, PieceOk, TailOk, ShownAfter, ShownTail, BeginsTag;
    if ps == [] {
      TailScan(p, shown, tail);
    } else {
      if ps[0].Words? { NextBeginsTag(ps, tail); }
      PieceTurn(p, shown, ps[0], PrintPieces(ps[1..], tail));
      ScanStep(p);
      PiecesScan(ps[1..], Turn(p), ShownAfter(shown, ps[0]), tail);
    }
  }

  /** For every sequence of such pieces, however it ends: white space is one blank, references are the
      characters they mean or stand as they are spelled, comments and the tags of elements that are not
      rendered only set words apart, raw elements leave nothing, and brackets around anything else are
      text. What is shown is escaped, without the blanks at its edges. */
  lemma PiecesAreShown(ps: seq<Piece>, tail: Tail)
    requires PiecesOk(ps) && TailOk(tail)
    ensures HtmlToPango(PrintPieces(ps, tail)) == Escape(Trim(ShownPieces("", ps, tail)))
  {
    hide Escape, BlanksOnly, Scan, Finish, TrimStart, TrimEnd, PiecesOk, TailOk, PrintPieces, ShownPieces;
    var p := Pass("", [], [], PrintPieces(ps, tail));
    EscapeNothing();
    NoBlanks();
    PiecesScan(ps, p, "", tail);
    var shown := ShownPieces("", ps, tail);
    BlanksAreNotNewlines(shown);
    EscapeKeepsOthers(shown, '\n');
    assert Escape(shown) + "" == Escape(shown);
    FinishOneLine(Escape(shown));
    TrimStartEscaped(shown);
    TrimEndEscaped(TrimStart(shown));
  }
}
