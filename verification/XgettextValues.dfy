/** What the strings mean: Rust and C spell characters the same way but for how far an escape in digits
    reaches, so that a string found as it is spelled may still be another message. */
module XgettextValues {
  import opened Prelude
  import opened Xgettext
  import opened XgettextStrings
  import opened XgettextRust

  function Digit(c: char): (d: nat)
    ensures d <= 16
  {
    if '0' <= c <= '9' then c as int - '0' as int
    else if 'a' <= c <= 'f' then c as int - 'a' as int + 10
    else if 'A' <= c <= 'F' then c as int - 'A' as int + 10
    else 16
  }

  /** A unit that is a digit of the base. */
  predicate IsDigit(u: Unit, base: nat) { u.Plain? && Digit(u.c) < base }

  /** What an escape without digits names, the same in both languages. */
  function Named(c: char): nat {
    if c == 'n' then 10 else if c == 'r' then 13 else if c == 't' then 9 else c as int
  }

  // ---------------------------------------------------------------- Rust

  /** The escapes Rust knows: a hexadecimal one has two digits, and no other has any. */
  predicate Valid(units: seq<Unit>) {
    if units == [] then true
    else if units[0].Plain? then Valid(units[1..])
    else if units[0].c == 'x' then |units| >= 3 && IsDigit(units[1], 16) && IsDigit(units[2], 16) && Valid(units[3..])
    else units[0].c in "nrt\\'\"0" && Valid(units[1..])
  }

  function RustValue(units: seq<Unit>): seq<nat>
    requires Valid(units)
  {
    if units == [] then []
    else if units[0].Plain? then [units[0].c as int] + RustValue(units[1..])
    else if units[0].c == 'x' then [16 * Digit(units[1].c) + Digit(units[2].c)] + RustValue(units[3..])
    else if units[0].c == '0' then [0] + RustValue(units[1..])
    else [Named(units[0].c)] + RustValue(units[1..])
  }

  // ---------------------------------------------------------------- C

  /** How many digits of the base come first, up to `most`. */
  function Run(units: seq<Unit>, base: nat, most: nat): (k: nat)
    ensures k <= |units| && k <= most && forall j :: 0 <= j < k ==> IsDigit(units[j], base)
    ensures k < |units| && k < most ==> !IsDigit(units[k], base)
  {
    if units != [] && most > 0 && IsDigit(units[0], base) then 1 + Run(units[1..], base, most - 1) else 0
  }

  function Number(digits: seq<Unit>, base: nat): nat {
    if digits == [] then 0 else base * Number(digits[..|digits| - 1], base) + Digit(digits[|digits| - 1].c)
  }

  /** A hexadecimal escape takes every digit that follows, an octal one three at the most, of which the
      first stands behind the backslash. */
  function CValue(units: seq<Unit>): seq<nat> {
    if units == [] then []
    else if units[0].Plain? then [units[0].c as int] + CValue(units[1..])
    else if units[0].c == 'x' then
      var k := Run(units[1..], 16, |units|);
      [Number(units[1..1 + k], 16)] + CValue(units[1 + k..])
    else if Digit(units[0].c) < 8 then
      var k := Run(units[1..], 8, 2);
      [Number([Plain(units[0].c)] + units[1..1 + k], 8)] + CValue(units[1 + k..])
    else [Named(units[0].c)] + CValue(units[1..])
  }

  // ---------------------------------------------------------------- where they differ

  /** A digit stands right behind an escape in digits, where C takes it to be part of the escape. */
  predicate SwallowsAt(units: seq<Unit>, i: nat)
    requires i < |units|
  {
    (units[i] == Escaped('x') && i + 3 < |units| && IsDigit(units[i + 3], 16))
    || (units[i] == Escaped('0') && i + 1 < |units| && IsDigit(units[i + 1], 8))
  }

  ghost predicate Swallows(units: seq<Unit>) { exists i | 0 <= i < |units| :: SwallowsAt(units, i) }

  lemma SwallowsLater(units: seq<Unit>, k: nat)
    requires k <= |units| && forall i | 0 <= i < k :: !SwallowsAt(units, i)
    ensures Swallows(units) <==> Swallows(units[k..])
  {
    var rest := units[k..];
    forall i | 0 <= i < |rest| ensures SwallowsAt(rest, i) == SwallowsAt(units, k + i) { }
    if Swallows(units) {
      var i :| 0 <= i < |units| && SwallowsAt(units, i);
      assert SwallowsAt(rest, i - k);
    }
  }

  /** Characters that stand for themselves mean that to Rust. */
  lemma {:induction false} PlainRun(units: seq<Unit>, k: nat)
    requires Valid(units) && k <= |units| && forall j :: 0 <= j < k ==> units[j].Plain?
    ensures Valid(units[k..]) && |RustValue(units)| == k + |RustValue(units[k..])|
    decreases k
  {
    if k > 0 {
      assert units[1..][k - 1..] == units[k..];
      PlainRun(units[1..], k - 1);
    } else {
      assert units[0..] == units;
    }
  }

  lemma OneDigit(d: Unit, base: nat)
    ensures Number([d], base) == Digit(d.c)
  {
    assert [d][..0] == [];
  }

  lemma TwoDigits(d: Unit, e: Unit)
    ensures Number([d, e], 16) == 16 * Digit(d.c) + Digit(e.c)
  {
    assert [d, e][..1] == [d];
    OneDigit(d, 16);
  }

  /** C reads no more characters than Rust, and exactly the same ones unless it swallows a digit. */
  lemma {:induction false} ValuesCompare(units: seq<Unit>)
    requires Valid(units)
    ensures |CValue(units)| <= |RustValue(units)|
    ensures if Swallows(units) then |CValue(units)| < |RustValue(units)| else CValue(units) == RustValue(units)
    decreases |units|
  {
    hide Swallows, Number, Run;
    if units == [] {
      NothingSwallows();
    } else if units[0].Escaped? && units[0].c == 'x' {
      HexCompare(units);
    } else if units[0].Escaped? && units[0].c == '0' {
      OctalCompare(units);
    } else {
      ValuesCompare(units[1..]);
      SwallowsLater(units, 1);
    }
  }

  lemma NothingSwallows()
    ensures !Swallows([])
  {
  }

  lemma {:induction false} HexCompare(units: seq<Unit>)
    requires Valid(units) && units != [] && units[0] == Escaped('x')
    ensures if Swallows(units) then |CValue(units)| < |RustValue(units)| else CValue(units) == RustValue(units)
    decreases |units|, 0
  {
    hide Swallows, Number, Valid, RustValue, CValue, Run, Digit;
    HexUnfolds(units);
    AtLeastTwo(units);
    var k := Run(units[1..], 16, |units|);
    assert units[3..][k - 2..] == units[1 + k..];
    assert forall j | 0 <= j < k - 2 :: units[3..][j] == units[1..][j + 2];
    PlainRun(units[3..], k - 2);
    ValuesCompare(units[1 + k..]);
    if k == 2 {
      TwoDigits(units[1], units[2]);
      assert units[1..3] == [units[1], units[2]];
      assert !SwallowsAt(units, 0) by { if 3 < |units| { assert units[1..][2] == units[3]; } }
      SwallowsLater(units, 3);
    } else {
      assert units[1..][2] == units[3] && SwallowsAt(units, 0);
      SwallowsHere(units, 0);
    }
  }

  lemma HexUnfolds(units: seq<Unit>)
    requires Valid(units) && units != [] && units[0] == Escaped('x')
    ensures |units| >= 3 && IsDigit(units[1], 16) && IsDigit(units[2], 16) && Valid(units[3..])
    ensures RustValue(units) == [16 * Digit(units[1].c) + Digit(units[2].c)] + RustValue(units[3..])
    ensures var k := Run(units[1..], 16, |units|); CValue(units) == [Number(units[1..1 + k], 16)] + CValue(units[1 + k..])
  {
    hide Number, Run, Digit, CValue, IsDigit;
    HexInC(units);
  }

  lemma HexInC(units: seq<Unit>)
    requires units != [] && units[0] == Escaped('x')
    ensures var k := Run(units[1..], 16, |units|); CValue(units) == [Number(units[1..1 + k], 16)] + CValue(units[1 + k..])
  {
    hide Number, Run, Digit, IsDigit;
  }

  lemma AtLeastTwo(units: seq<Unit>)
    requires |units| >= 3 && IsDigit(units[1], 16) && IsDigit(units[2], 16)
    ensures Run(units[1..], 16, |units|) >= 2
  {
    assert units[1..][0] == units[1] && units[1..][1] == units[2];
  }

  lemma SwallowsHere(units: seq<Unit>, i: nat)
    requires i < |units| && SwallowsAt(units, i)
    ensures Swallows(units)
  {
  }

  lemma {:induction false} OctalCompare(units: seq<Unit>)
    requires Valid(units) && units != [] && units[0] == Escaped('0')
    ensures if Swallows(units) then |CValue(units)| < |RustValue(units)| else CValue(units) == RustValue(units)
    decreases |units|, 0
  {
    hide Swallows, Number;
    var k := Run(units[1..], 8, 2);
    assert units[1..][k..] == units[1 + k..];
    PlainRun(units[1..], k);
    ValuesCompare(units[1 + k..]);
    if k == 0 {
      OneDigit(Plain('0'), 8);
      assert [Plain('0')] + units[1..1] == [Plain('0')];
      assert !SwallowsAt(units, 0) by { if 1 < |units| { assert units[1..][0] == units[1]; } }
      SwallowsLater(units, 1);
    } else {
      assert units[1..][0] == units[1] && SwallowsAt(units, 0);
      SwallowsHere(units, 0);
    }
  }

  /** A string means the same to Rust and to C if and only if no hexadecimal escape has a third digit
      behind it, and no null an octal one. */
  lemma SameValueIff(units: seq<Unit>)
    requires Valid(units)
    ensures CValue(units) == RustValue(units) <==> !Swallows(units)
  {
    ValuesCompare(units);
  }

  // ---------------------------------------------------------------- the messages of a source

  /** What a Rust compiler accepts. */
  ghost predicate AllValid(strings: seq<seq<Unit>>) { forall s | s in strings :: Valid(s) }

  function RustMessages(strings: seq<seq<Unit>>): (r: seq<seq<nat>>)
    requires AllValid(strings)
    ensures |r| == |strings| && forall i :: 0 <= i < |r| ==> Valid(strings[i]) && r[i] == RustValue(strings[i])
  {
    assert forall i | 0 <= i < |strings| :: strings[i] in strings;
    seq(|strings|, i requires 0 <= i < |strings| && Valid(strings[i]) => RustValue(strings[i]))
  }

  function CMessages(strings: seq<seq<Unit>>): (r: seq<seq<nat>>)
    ensures |r| == |strings| && forall i :: 0 <= i < |r| ==> r[i] == CValue(strings[i])
  {
    seq(|strings|, i requires 0 <= i < |strings| => CValue(strings[i]))
  }

  lemma SameMessagesIff(strings: seq<seq<Unit>>)
    requires AllValid(strings)
    ensures CMessages(strings) == RustMessages(strings) <==> forall s | s in strings :: !Swallows(s)
  {
    hide Valid, RustValue, CValue, Swallows;
    forall i | 0 <= i < |strings| ensures CMessages(strings)[i] == RustMessages(strings)[i] <==> !Swallows(strings[i]) {
      assert strings[i] in strings;
      SameValueIff(strings[i]);
    }
    if forall s | s in strings :: !Swallows(s) {
      assert CMessages(strings) == RustMessages(strings);
    }
  }

  /** Of a source whose strings are all found, the messages the extractor writes down are those the
      program looks up, if and only if no escape in digits has another digit behind it. */
  lemma MessagesAreFoundIff(src: string, host: Host)
    requires Sound(host) && Convert(src, host).Ok? && ReadAlike(src, host) && AllValid(RustStrings(src, 0, host))
    requires !SomeUnspellable(RustStrings(src, 0, host)) && PrefixedAreEmpty(src, 0, host)
    ensures CMessages(CStrings(Convert(src, host).value.text)) == RustMessages(RustStrings(src, 0, host)) <==>
            forall s | s in RustStrings(src, 0, host) :: !Swallows(s)
  {
    hide Convert, CStrings, RustStrings, Sound, ReadAlike, SomeUnspellable, PrefixedAreEmpty, Swallows, Valid;
    StringsAreFoundIff(src, host);
    SameMessagesIff(RustStrings(src, 0, host));
  }

  const THIRD_DIGIT := "\"\\x41b\""

  lemma ThirdDigitRead(host: Host)
    ensures Construct(THIRD_DIGIT, 0, host) == Ok(Scan(THIRD_DIGIT, 7, 0, 0, 0))
  {
    hide StringPiece;
    var src := THIRD_DIGIT;
    assert src[3..6] == "41b";
    VerbatimBody(src, 3, 6, host);
    assert StringPiece(src, 1, host) == Ok(Scan("\\x", 3, 0, 0, 0)) by { ThirdDigitPiece(host); }
    assert "\\x" + "41b" == "\\x41b" && ['"'] + "\\x41b" + ['"'] == src;
    AtFirst(src, 0, "//");
    AtFirst(src, 0, "/*");
  }

  lemma ThirdDigitPiece(host: Host)
    ensures StringPiece(THIRD_DIGIT, 1, host) == Ok(Scan("\\x", 3, 0, 0, 0))
  {
    assert THIRD_DIGIT[1..4] == "\\x4";
  }

  /** A letter b behind a hexadecimal escape: the program looks up an A and a b, the extractor writes down
      the one character 0x41b. */
  lemma ThirdDigitIsSwallowed(host: Host)
    requires Sound(host)
    ensures Convert(THIRD_DIGIT, host) == Ok(Output(THIRD_DIGIT, 0, 0))
    ensures var s := [Escaped('x'), Plain('4'), Plain('1'), Plain('b')];
            RustStrings(THIRD_DIGIT, 0, host) == [s] && CStrings(THIRD_DIGIT) == [s] && Valid(s) && RustValue(s) == [0x41, 'b' as int] && CValue(s) == [0x41b]
  {
    hide CStrings, Construct;
    ThirdDigitRead(host);
    WholeSource(THIRD_DIGIT, Scan(THIRD_DIGIT, 7, 0, 0, 0), host);
    ThirdDigitFound(host);
    ThirdDigitMeans();
  }

  lemma ThirdDigitFound(host: Host)
    requires Sound(host)
    ensures var s := [Escaped('x'), Plain('4'), Plain('1'), Plain('b')];
            RustStrings(THIRD_DIGIT, 0, host) == [s] && CStrings(THIRD_DIGIT) == [s]
  {
    hide CStrings, Quoted, RustStrings;
    var src := THIRD_DIGIT;
    var s := [Escaped('x'), Plain('4'), Plain('1'), Plain('b')];
    ThirdDigitIsRust(host);
    assert Spelling(s) == "\\x41b" by { ThirdDigitSpelled(s); }
    SpellingRead(s, "");
    assert src == "\"" + ("\\x41b" + ("\"" + ""));
    QuoteOpens("\\x41b" + ("\"" + ""));
    NothingFound();
    assert [s] + [] == [s];
  }

  lemma ThirdDigitIsRust(host: Host)
    requires Sound(host)
    ensures RustStrings(THIRD_DIGIT, 0, host) == [[Escaped('x'), Plain('4'), Plain('1'), Plain('b')]]
  {
    hide RustUnits, StringEnd;
    var src := THIRD_DIGIT;
    AtFirst(src, 0, "//");
    AtFirst(src, 0, "/*");
    NotInName('"', host);
    ThirdDigitUnits(host);
    assert RustStrings(src, 7, host) == [];
    var found := [RustUnits(src, 1, host)];
    assert found + [] == found;
  }

  lemma ThirdDigitUnits(host: Host)
    ensures RustUnits(THIRD_DIGIT, 1, host) == [Escaped('x'), Plain('4'), Plain('1'), Plain('b')] && StringEnd(THIRD_DIGIT, 1) == 7
  {
    hide RustUnits, StringEnd;
    var src := THIRD_DIGIT;
    StringIsOver(src, 6, host);
    CharacterIsRead(src, 5, host);
    CharacterIsRead(src, 4, host);
    CharacterIsRead(src, 3, host);
    EscapeIsRead(src, 1, host);
    assert [Plain('4')] + ([Plain('1')] + ([Plain('b')] + [])) == [Plain('4'), Plain('1'), Plain('b')];
    assert [Escaped('x')] + [Plain('4'), Plain('1'), Plain('b')] == [Escaped('x'), Plain('4'), Plain('1'), Plain('b')];
  }

  lemma StringIsOver(src: string, j: nat, host: Host)
    requires j < |src| && src[j] == '"'
    ensures RustUnits(src, j, host) == [] && StringEnd(src, j) == j + 1
  {
  }

  lemma CharacterIsRead(src: string, j: nat, host: Host)
    requires j < |src| && src[j] !in "\"\\\n"
    ensures RustUnits(src, j, host) == [Plain(src[j])] + RustUnits(src, j + 1, host) && StringEnd(src, j) == StringEnd(src, j + 1)
  {
  }

  lemma EscapeIsRead(src: string, j: nat, host: Host)
    requires j + 1 < |src| && src[j] == '\\' && src[j + 1] !in "\nu"
    ensures RustUnits(src, j, host) == [Escaped(src[j + 1])] + RustUnits(src, j + 2, host) && StringEnd(src, j) == StringEnd(src, j + 2)
  {
  }

  lemma ThirdDigitSpelled(s: seq<Unit>)
    requires s == [Escaped('x'), Plain('4'), Plain('1'), Plain('b')]
    ensures Spelling(s) == "\\x41b"
  {
    hide Spelling;
    SpelledFirst(Plain('b'), []);
    SpelledFirst(Plain('1'), [Plain('b')]);
    SpelledFirst(Plain('4'), [Plain('1'), Plain('b')]);
    SpelledFirst(Escaped('x'), [Plain('4'), Plain('1'), Plain('b')]);
    assert s == [Escaped('x')] + [Plain('4'), Plain('1'), Plain('b')] && [Plain('4')] + [Plain('1'), Plain('b')] == [Plain('4'), Plain('1'), Plain('b')]
      && [Plain('1')] + [Plain('b')] == [Plain('1'), Plain('b')] && [Plain('b')] + [] == [Plain('b')];
    assert "b" + "" == "b" && "1" + "b" == "1b" && "4" + "1b" == "41b" && "\\x" + "41b" == "\\x41b";
    NothingSpelled();
  }

  lemma SpelledFirst(u: Unit, rest: seq<Unit>)
    ensures Spelling([u] + rest) == (if u.Plain? then [u.c] else ['\\', u.c]) + Spelling(rest)
  {
    assert ([u] + rest)[1..] == rest;
  }

  lemma NothingSpelled()
    ensures Spelling([]) == ""
  {
  }

  lemma ThirdDigitMeans()
    ensures var s := [Escaped('x'), Plain('4'), Plain('1'), Plain('b')];
            Valid(s) && RustValue(s) == [0x41, 'b' as int] && CValue(s) == [0x41b]
  {
    var s := [Escaped('x'), Plain('4'), Plain('1'), Plain('b')];
    var digits := s[1..];
    assert s[3..] == [Plain('b')] && s[3..][1..] == [];
    assert digits == [Plain('4'), Plain('1'), Plain('b')];
    var k := Run(digits, 16, 4);
    assert k == 3;
    assert s[1..4] == digits && s[4..] == [];
    assert digits[..2] == [Plain('4'), Plain('1')];
    TwoDigits(Plain('4'), Plain('1'));
    assert Number(digits, 16) == 0x41b;
  }
}
