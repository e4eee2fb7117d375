/** What a log may say: URLs are replaced whole, and lines are held back until they are complete. A
    scheme is a letter followed by letters, digits, `+`, `-` and `.` (section 3.1 of RFC 3986). */
module LogPrivacy {
  import opened Prelude

  const PLACEHOLDER := "<url>"

  predicate Letter(c: char) { 'a' <= c <= 'z' || 'A' <= c <= 'Z' }

  predicate SchemeChar(c: char) { Letter(c) || '0' <= c <= '9' || c == '+' || c == '-' || c == '.' }

  predicate Terminator(c: char) {
    White(c) || c == '"' || c == '\'' || c == '<' || c == '>' || c == ')' || c == '}' || c == '|' || c == '\\' || c == '`'
  }

  /** Sentence punctuation, which is not part of a URL it ends. */
  predicate Trailing(c: char) { c == '.' || c == ',' || c == ';' || c == ':' || c == '!' || c == '?' || c == ']' }

  predicate Separator(t: string, i: nat) { i + 3 <= |t| && t[i] == ':' && t[i + 1] == '/' && t[i + 2] == '/' }

  function FindSeparator(t: string, i: nat): (k: nat)
    requires i <= |t|
    ensures i <= k <= |t| && (k < |t| ==> Separator(t, k)) && forall j :: i <= j < k ==> !Separator(t, j)
    decreases |t| - i
  {
    if i == |t| || Separator(t, i) then i else FindSeparator(t, i + 1)
  }

  /** The start of the run of scheme characters that ends at `sep`. */
  function RunStart(t: string, sep: nat): (k: nat)
    requires sep <= |t|
    ensures k <= sep && (forall j :: k <= j < sep ==> SchemeChar(t[j])) && (k > 0 ==> !SchemeChar(t[k - 1]))
  {
    if sep > 0 && SchemeChar(t[sep - 1]) then RunStart(t, sep - 1) else sep
  }

  function FirstLetter(t: string, from: nat, sep: nat): (k: nat)
    requires from <= sep <= |t|
    ensures from <= k <= sep && (k < sep ==> Letter(t[k])) && forall j :: from <= j < k ==> !Letter(t[j])
    decreases sep - from
  {
    if from == sep || Letter(t[from]) then from else FirstLetter(t, from + 1, sep)
  }

  /** Where the scheme before the separator starts; at the separator when there is none. */
  function SchemeStart(t: string, sep: nat): (k: nat)
    requires sep <= |t|
    ensures k <= sep
  {
    FirstLetter(t, RunStart(t, sep), sep)
  }

  function FindTerminator(t: string, i: nat): (k: nat)
    requires i <= |t|
    ensures i <= k <= |t| && (k < |t| ==> Terminator(t[k])) && forall j :: i <= j < k ==> !Terminator(t[j])
    decreases |t| - i
  {
    if i == |t| || Terminator(t[i]) then i else FindTerminator(t, i + 1)
  }

  function DropTrailing(t: string, after: nat, end: nat): (k: nat)
    requires after <= end <= |t|
    ensures after <= k <= end && (k > after ==> !Trailing(t[k - 1])) && forall j :: k <= j < end ==> Trailing(t[j])
  {
    if end > after && Trailing(t[end - 1]) then DropTrailing(t, after, end - 1) else end
  }

  /** Where what follows the separator ends; right after the separator when nothing follows. */
  function UrlEnd(t: string, after: nat): (k: nat)
    requires after <= |t|
    ensures after <= k <= |t|
  {
    DropTrailing(t, after, FindTerminator(t, after))
  }

  /** `t` from `pos` on, with every URL replaced; everything up to `pos` is known to hold none. */
  function ScrubFrom(t: string, pos: nat): string
    requires pos <= |t|
    decreases |t|, |t| - pos
  {
    var sep := FindSeparator(t, pos);
    if sep == |t| then t
    else
      var start, end := SchemeStart(t, sep), UrlEnd(t, sep + 3);
      if start == sep || end == sep + 3 then ScrubFrom(t, sep + 3)
      else Replaced(t, start, ScrubFrom(t[end..], 0))
  }

  /** `t` up to the URL that starts at `start`, its placeholder, and the rest. */
  function Replaced(t: string, start: nat, rest: string): string
    requires start <= |t|
  {
    t[..start] + PLACEHOLDER + rest
  }

  function ScrubUrls(t: string): string { ScrubFrom(t, 0) }

  // ---------------------------------------------------------------- what a URL is

  predicate HasScheme(t: string, sep: nat) {
    exists a :: 0 <= a < sep <= |t| && Letter(t[a]) && forall j :: a <= j < sep ==> SchemeChar(t[j])
  }

  predicate HasRest(t: string, after: nat) {
    exists e :: after <= e < |t| && !Trailing(t[e]) && forall j :: after <= j <= e ==> !Terminator(t[j])
  }

  /** A separator with a scheme before it and something more than punctuation after it. */
  predicate Recognised(t: string, sep: nat) { Separator(t, sep) && HasScheme(t, sep) && HasRest(t, sep + 3) }

  /** The characters of a scheme by their codes, and those that end a URL or a sentence one by one. */
  lemma UrlCharacters(c: char)
    ensures Letter(c) <==> 65 <= c as int <= 90 || 97 <= c as int <= 122
    ensures SchemeChar(c) <==> Letter(c) || 48 <= c as int <= 57 || c in "+-."
    ensures Terminator(c) <==> White(c) || c in "\"'<>)}|\\`"
    ensures Trailing(c) <==> c in ".,;:!?]"
  {
  }

  lemma SeparatorIs(t: string, i: nat)
    ensures Separator(t, i) <==> i + 3 <= |t| && t[i..i + 3] == "://"
  {
    if i + 3 <= |t| { assert t[i..i + 3] == [t[i], t[i + 1], t[i + 2]]; }
  }

  lemma SchemeStartIff(t: string, sep: nat)
    requires sep <= |t|
    ensures SchemeStart(t, sep) < sep <==> HasScheme(t, sep)
  {
    var run, start := RunStart(t, sep), SchemeStart(t, sep);
    if HasScheme(t, sep) {
      var a :| 0 <= a < sep <= |t| && Letter(t[a]) && forall j :: a <= j < sep ==> SchemeChar(t[j]);
      assert a >= run;
    }
  }

  lemma UrlEndIff(t: string, after: nat)
    requires after <= |t|
    ensures UrlEnd(t, after) > after <==> HasRest(t, after)
  {
    var end, stop := UrlEnd(t, after), FindTerminator(t, after);
    if end > after {
      assert !Trailing(t[end - 1]) && forall j :: after <= j <= end - 1 ==> !Terminator(t[j]);
    }
    if HasRest(t, after) {
      var e :| after <= e < |t| && !Trailing(t[e]) && forall j :: after <= j <= e ==> !Terminator(t[j]);
      assert e < stop;
    }
  }

  lemma {:induction false} ScrubChangesNothing(t: string, pos: nat)
    requires pos <= |t| && forall s :: pos <= s < |t| ==> !Recognised(t, s)
    ensures ScrubFrom(t, pos) == t
    decreases |t| - pos
  {
    hide Recognised, HasScheme, HasRest, SchemeStart, UrlEnd, FindSeparator, Replaced;
    var sep := FindSeparator(t, pos);
    ScrubStep(t, pos);
    if sep < |t| {
      hide ScrubFrom;
      SchemeStartIff(t, sep);
      UrlEndIff(t, sep + 3);
      NotRecognised(t, sep);
      ScrubChangesNothing(t, sep + 3);
    }
  }

  lemma NotRecognised(t: string, sep: nat)
    ensures Recognised(t, sep) <==> Separator(t, sep) && HasScheme(t, sep) && HasRest(t, sep + 3)
  {
  }

  /** What is recognised before a URL cut out of `t` was recognisable there before. */
  lemma RecognisedBefore(t: string, start: nat, rest: string, s: nat)
    requires s < start <= |t| && Recognised(t[..start] + PLACEHOLDER + rest, s)
    ensures Recognised(t, s)
  {
    var out := t[..start] + PLACEHOLDER + rest;
    assert out[start] == '<' && forall j :: 0 <= j < start ==> out[j] == t[j];
    assert s + 3 <= start;
    var a :| 0 <= a < s <= |out| && Letter(out[a]) && forall j :: a <= j < s ==> SchemeChar(out[j]);
    assert HasScheme(t, s);
    var e :| s + 3 <= e < |out| && !Trailing(out[e]) && forall j :: s + 3 <= j <= e ==> !Terminator(out[j]);
    assert e < start;
    assert HasRest(t, s + 3);
  }

  /** What is recognised at its placeholder or after it was recognisable in the rest. */
  lemma RecognisedAfter(before: string, rest: string, s: nat)
    requires |before| <= s && Recognised(before + PLACEHOLDER + rest, s)
    ensures |before| + 5 <= s < |before| + 5 + |rest| && Recognised(rest, s - |before| - 5)
  {
    var out, at, skip := before + PLACEHOLDER + rest, |before|, |before| + 5;
    assert out[at] == '<' && out[at + 1] == 'u' && out[at + 2] == 'r' && out[at + 3] == 'l' && out[at + 4] == '>';
    assert forall j :: skip <= j < |out| ==> out[j] == rest[j - skip];
    var a :| 0 <= a < s <= |out| && Letter(out[a]) && forall j :: a <= j < s ==> SchemeChar(out[j]);
    assert s >= skip && a >= skip;
    assert forall j :: a - skip <= j < s - skip ==> rest[j] == out[j + skip];
    assert HasScheme(rest, s - skip);
    RestAfter(out, rest, skip, s);
  }

  lemma RestAfter(out: string, rest: string, skip: nat, s: nat)
    requires skip <= s && |out| == skip + |rest| && (forall j :: skip <= j < |out| ==> out[j] == rest[j - skip])
    requires HasRest(out, s + 3)
    ensures HasRest(rest, s + 3 - skip)
  {
    var e :| s + 3 <= e < |out| && !Trailing(out[e]) && forall j :: s + 3 <= j <= e ==> !Terminator(out[j]);
    assert !Trailing(rest[e - skip]) && forall j :: s + 3 - skip <= j <= e - skip ==> rest[j] == out[j + skip];
  }

  lemma NothingAround(t: string, start: nat, rest: string, s: nat)
    requires start <= |t| && (forall i :: 0 <= i < start ==> !Recognised(t, i)) && forall i :: 0 <= i < |rest| ==> !Recognised(rest, i)
    ensures !Recognised(t[..start] + PLACEHOLDER + rest, s)
  {
    hide Recognised;
    if Recognised(t[..start] + PLACEHOLDER + rest, s) {
      if s < start { RecognisedBefore(t, start, rest, s); } else { RecognisedAfter(t[..start], rest, s); }
    }
  }

  lemma {:induction false} ScrubLeavesNothing(t: string, pos: nat)
    requires pos <= |t| && forall s :: 0 <= s < pos ==> !Recognised(t, s)
    ensures forall s :: 0 <= s < |ScrubFrom(t, pos)| ==> !Recognised(ScrubFrom(t, pos), s)
    decreases |t|, |t| - pos
  {
    hide Recognised, HasScheme, HasRest, SchemeStart, UrlEnd;
    var sep := FindSeparator(t, pos);
    forall s: nat ensures Recognised(t, s) ==> Separator(t, s) && s < |t| { NotRecognised(t, s); }
    if sep < |t| {
      var start, end := SchemeStart(t, sep), UrlEnd(t, sep + 3);
      if start == sep || end == sep + 3 {
        SchemeStartIff(t, sep);
        UrlEndIff(t, sep + 3);
        NotRecognised(t, sep);
        ScrubLeavesNothing(t, sep + 3);
      } else {
        ScrubLeavesNothing(t[end..], 0);
        forall s: nat ensures !Recognised(t[..start] + PLACEHOLDER + ScrubFrom(t[end..], 0), s) { NothingAround(t, start, ScrubFrom(t[end..], 0), s); }
      }
    }
  }

  /** Nothing is left that would be recognised as a URL. */
  lemma NoUrlIsLeft(t: string, sep: nat)
    ensures !Recognised(ScrubUrls(t), sep)
  {
    hide ScrubFrom, HasScheme, HasRest;
    ScrubLeavesNothing(t, 0);
  }

  lemma ScrubIsIdempotent(t: string)
    ensures ScrubUrls(ScrubUrls(t)) == ScrubUrls(t)
  {
    hide ScrubFrom, Recognised;
    ScrubLeavesNothing(t, 0);
    ScrubChangesNothing(ScrubUrls(t), 0);
  }

  /** Text is left alone exactly when it holds no URL. */
  lemma UnchangedIffNoUrl(t: string)
    ensures ScrubUrls(t) == t <==> forall sep :: 0 <= sep < |t| ==> !Recognised(t, sep)
  {
    hide ScrubFrom, Recognised;
    ScrubLeavesNothing(t, 0);
    if forall sep :: 0 <= sep < |t| ==> !Recognised(t, sep) { ScrubChangesNothing(t, 0); }
  }

  // ---------------------------------------------------------------- what is kept

  datatype Piece = Kept(text: string) | Url(url: string)

  function Source(pieces: seq<Piece>): string {
    if pieces == [] then "" else (if pieces[0].Kept? then pieces[0].text else pieces[0].url) + Source(pieces[1..])
  }

  function Logged(pieces: seq<Piece>): string {
    if pieces == [] then "" else (if pieces[0].Kept? then pieces[0].text else PLACEHOLDER) + Logged(pieces[1..])
  }

  /** A scheme, the separator, and something after it that does not end in punctuation. */
  predicate IsUrl(u: string) {
    exists m :: 0 < m && m + 3 < |u| && Separator(u, m) && Letter(u[0]) && (forall j :: 0 <= j < m ==> SchemeChar(u[j]))
      && (forall j :: m + 3 <= j < |u| ==> !Terminator(u[j])) && !Trailing(u[|u| - 1])
  }

  /** A URL cannot start earlier: the scheme characters right before it hold no letter. */
  ghost predicate NoEarlierStart(before: string) {
    forall a :: 0 <= a < |before| && (forall j :: a <= j < |before| ==> SchemeChar(before[j])) ==> !Letter(before[a])
  }

  /** Nor can it end later: behind it stands only sentence punctuation, up to a terminator or the end. */
  ghost predicate NoLaterEnd(behind: string) { exists k | 0 <= k <= |behind| :: PunctuationUpTo(behind, k) }

  predicate PunctuationUpTo(behind: string, k: nat)
    requires k <= |behind|
  {
    (k < |behind| ==> Terminator(behind[k])) && forall j :: 0 <= j < k ==> Trailing(behind[j])
  }

  /** The URL pieces stand between kept ones and reach as far as a URL does in the text, both ways. */
  ghost predicate Maximal(pieces: seq<Piece>) {
    forall i :: 0 <= i < |pieces| && pieces[i].Url? ==>
      i > 0 && pieces[i - 1].Kept? && NoEarlierStart(pieces[i - 1].text) && NoLaterEnd(Source(pieces[i + 1..]))
  }

  lemma CutIsMaximal(t: string, sep: nat)
    requires sep + 3 <= |t| && SchemeStart(t, sep) < sep
    ensures NoEarlierStart(t[..SchemeStart(t, sep)]) && NoLaterEnd(t[UrlEnd(t, sep + 3)..])
  {
    hide FirstLetter, FindTerminator, DropTrailing, SchemeChar, Terminator, Trailing, Letter;
    var start, end := SchemeStart(t, sep), UrlEnd(t, sep + 3);
    var run, k := RunStart(t, sep), FindTerminator(t, sep + 3) - end;
    var before, behind := t[..start], t[end..];
    assert run > 0 ==> !SchemeChar(before[run - 1]);
    forall a | 0 <= a < |before| && forall j :: a <= j < |before| ==> SchemeChar(before[j]) ensures !Letter(before[a]) { }
    assert forall j :: 0 <= j < |behind| ==> behind[j] == t[end + j];
    assert PunctuationUpTo(behind, k);
  }

  lemma MaximalOn(before: string, url: string, rest: seq<Piece>)
    requires NoEarlierStart(before) && NoLaterEnd(Source(rest)) && Maximal(rest)
    ensures Maximal([Kept(before), Url(url)] + rest)
  {
    hide NoEarlierStart, NoLaterEnd, Source;
    var pieces := [Kept(before), Url(url)] + rest;
    assert pieces[2..] == rest;
    forall i | 0 <= i < |pieces| && pieces[i].Url?
      ensures i > 0 && pieces[i - 1].Kept? && NoEarlierStart(pieces[i - 1].text) && NoLaterEnd(Source(pieces[i + 1..]))
    {
      if i >= 2 { assert pieces[i] == rest[i - 2] && pieces[i - 1] == rest[i - 3] && pieces[i + 1..] == rest[i - 1..]; }
    }
  }

  lemma CutIsUrl(t: string, sep: nat)
    requires Separator(t, sep) && SchemeStart(t, sep) < sep && UrlEnd(t, sep + 3) > sep + 3
    ensures IsUrl(t[SchemeStart(t, sep)..UrlEnd(t, sep + 3)])
  {
    hide RunStart, FirstLetter, FindTerminator, DropTrailing, SchemeChar, Terminator, Trailing, Letter;
    var start, end := SchemeStart(t, sep), UrlEnd(t, sep + 3);
    var u, m := t[start..end], sep - start;
    assert forall j :: 0 <= j < |u| ==> u[j] == t[start + j];
    assert Separator(u, m);
  }

  lemma OnePiece(t: string)
    ensures Source([Kept(t)]) == t && Logged([Kept(t)]) == t
  {
    assert [Kept(t)][1..] == [] && t + "" == t;
  }

  lemma TwoPieces(t: string, start: nat, end: nat, rest: seq<Piece>, logged: string)
    requires start <= end <= |t| && Source(rest) == t[end..] && Logged(rest) == logged
    ensures var pieces := [Kept(t[..start]), Url(t[start..end])] + rest;
            Source(pieces) == t && Logged(pieces) == Replaced(t, start, logged)
  {
    var pieces := [Kept(t[..start]), Url(t[start..end])] + rest;
    assert pieces[1..] == [Url(t[start..end])] + rest && pieces[1..][1..] == rest;
    assert t == t[..start] + (t[start..end] + t[end..]);
    assert t[..start] + (PLACEHOLDER + logged) == t[..start] + PLACEHOLDER + logged;
  }

  lemma {:induction false} SplitFrom(t: string, pos: nat) returns (pieces: seq<Piece>)
    requires pos <= |t|
    ensures Source(pieces) == t && Logged(pieces) == ScrubFrom(t, pos)
    ensures Maximal(pieces) && forall p :: p in pieces && p.Url? ==> IsUrl(p.url)
    decreases |t|, |t| - pos
  {
    hide IsUrl, SchemeStart, UrlEnd, FindSeparator, Replaced, Source, Logged, NoEarlierStart, NoLaterEnd;
    var sep := FindSeparator(t, pos);
    if sep == |t| {
      pieces := [Kept(t)];
      OnePiece(t);
    } else {
      var start, end := SchemeStart(t, sep), UrlEnd(t, sep + 3);
      if start == sep || end == sep + 3 {
        pieces := SplitFrom(t, sep + 3);
      } else {
        CutIsUrl(t, sep);
        var rest := SplitFrom(t[end..], 0);
        pieces := [Kept(t[..start]), Url(t[start..end])] + rest;
        TwoPieces(t, start, end, rest, ScrubFrom(t[end..], 0));
        CutIsMaximal(t, sep);
        MaximalOn(t[..start], t[start..end], rest);
      }
    }
  }

  /** Every text splits into stretches that are logged as they are and URLs that are replaced whole, as
      far as each of them reaches; no other character is changed, dropped or added. */
  lemma OnlyUrlsAreReplaced(t: string) returns (pieces: seq<Piece>)
    ensures Source(pieces) == t && Logged(pieces) == ScrubUrls(t)
    ensures Maximal(pieces) && forall p :: p in pieces && p.Url? ==> IsUrl(p.url)
  {
    pieces := SplitFrom(t, 0);
  }

  // ---------------------------------------------------------------- line by line

  lemma {:induction false} FindSeparatorShift(p: string, b: string, q: nat)
    requires q <= |b|
    ensures FindSeparator(p + b, |p| + q) == |p| + FindSeparator(b, q)
    decreases |b| - q
  {
    if q < |b| {
      assert forall j :: 0 <= j < |b| ==> (p + b)[|p| + j] == b[j];
      if !Separator(b, q) { FindSeparatorShift(p, b, q + 1); }
    }
  }

  lemma {:induction false} RunStartShift(p: string, b: string, s: nat)
    requires s <= |b| && p != "" && !SchemeChar(p[|p| - 1])
    ensures RunStart(p + b, |p| + s) == |p| + RunStart(b, s)
  {
    if s > 0 { RunStartShift(p, b, s - 1); }
  }

  lemma {:induction false} FirstLetterShift(p: string, b: string, from: nat, s: nat)
    requires from <= s <= |b|
    ensures FirstLetter(p + b, |p| + from, |p| + s) == |p| + FirstLetter(b, from, s)
    decreases s - from
  {
    if from < s { FirstLetterShift(p, b, from + 1, s); }
  }

  lemma {:induction false} FindTerminatorShift(p: string, b: string, q: nat)
    requires q <= |b|
    ensures FindTerminator(p + b, |p| + q) == |p| + FindTerminator(b, q)
    decreases |b| - q
  {
    if q < |b| { FindTerminatorShift(p, b, q + 1); }
  }

  lemma {:induction false} DropTrailingShift(p: string, b: string, after: nat, end: nat)
    requires after <= end <= |b|
    ensures DropTrailing(p + b, |p| + after, |p| + end) == |p| + DropTrailing(b, after, end)
    decreases end
  {
    if end > after { DropTrailingShift(p, b, after, end - 1); }
  }

  lemma CutShift(p: string, b: string, sep: nat)
    requires sep + 3 <= |b| && p != "" && !SchemeChar(p[|p| - 1])
    ensures SchemeStart(p + b, |p| + sep) == |p| + SchemeStart(b, sep) && UrlEnd(p + b, |p| + sep + 3) == |p| + UrlEnd(b, sep + 3)
  {
    RunStartShift(p, b, sep);
    FirstLetterShift(p, b, RunStart(b, sep), sep);
    FindTerminatorShift(p, b, sep + 3);
    DropTrailingShift(p, b, sep + 3, FindTerminator(b, sep + 3));
  }

  lemma ReplacedShift(p: string, b: string, start: nat, rest: string)
    requires start <= |b|
    ensures Replaced(p + b, |p| + start, rest) == p + Replaced(b, start, rest)
  {
    assert (p + b)[..|p| + start] == p + b[..start];
  }

  /** What stands before a newline does not matter for what comes after it. */
  lemma {:induction false} PrefixStays(p: string, b: string, q: nat)
    requires q <= |b| && p != "" && !SchemeChar(p[|p| - 1])
    ensures ScrubFrom(p + b, |p| + q) == p + ScrubFrom(b, q)
    decreases |b| - q
  {
    hide FindSeparator, SchemeStart, UrlEnd, Replaced, SchemeChar, ScrubFrom;
    FindSeparatorShift(p, b, q);
    ScrubStep(b, q);
    ScrubStep(p + b, |p| + q);
    var sep := FindSeparator(b, q);
    if sep < |b| {
      CutShift(p, b, sep);
      var start, end := SchemeStart(b, sep), UrlEnd(b, sep + 3);
      if start == sep || end == sep + 3 {
        PrefixStays(p, b, sep + 3);
      } else {
        assert (p + b)[|p| + end..] == b[end..];
        ReplacedShift(p, b, start, ScrubFrom(b[end..], 0));
      }
    }
  }

  lemma {:induction false} FindSeparatorHead(h: string, b: string, i: nat)
    requires i <= |h| && h != "" && h[|h| - 1] == '\n'
    ensures FindSeparator(h + b, i) == if FindSeparator(h, i) < |h| then FindSeparator(h, i) else FindSeparator(h + b, |h|)
    decreases |h| - i
  {
    if i < |h| {
      assert forall j :: 0 <= j < |h| ==> (h + b)[j] == h[j];
      if !Separator(h, i) { FindSeparatorHead(h, b, i + 1); }
    }
  }

  lemma {:induction false} RunStartHead(h: string, b: string, s: nat)
    requires s <= |h|
    ensures RunStart(h + b, s) == RunStart(h, s)
  {
    if s > 0 { RunStartHead(h, b, s - 1); }
  }

  lemma {:induction false} FirstLetterHead(h: string, b: string, from: nat, s: nat)
    requires from <= s <= |h|
    ensures FirstLetter(h + b, from, s) == FirstLetter(h, from, s)
    decreases s - from
  {
    if from < s { FirstLetterHead(h, b, from + 1, s); }
  }

  lemma {:induction false} FindTerminatorHead(h: string, b: string, i: nat)
    requires i < |h| && h[|h| - 1] == '\n'
    ensures FindTerminator(h + b, i) == FindTerminator(h, i) < |h|
    decreases |h| - i
  {
    if !Terminator(h[i]) { FindTerminatorHead(h, b, i + 1); }
  }

  lemma {:induction false} DropTrailingHead(h: string, b: string, after: nat, end: nat)
    requires after <= end <= |h|
    ensures DropTrailing(h + b, after, end) == DropTrailing(h, after, end)
    decreases end
  {
    if end > after { DropTrailingHead(h, b, after, end - 1); }
  }

  lemma CutHead(h: string, b: string, sep: nat)
    requires sep + 3 < |h| && h[|h| - 1] == '\n'
    ensures SchemeStart(h + b, sep) == SchemeStart(h, sep) && UrlEnd(h + b, sep + 3) == UrlEnd(h, sep + 3) < |h|
  {
    RunStartHead(h, b, sep);
    FirstLetterHead(h, b, RunStart(h, sep), sep);
    FindTerminatorHead(h, b, sep + 3);
    DropTrailingHead(h, b, sep + 3, FindTerminator(h, sep + 3));
  }

  lemma ReplacedHead(h: string, b: string, start: nat, rest: string, tail: string)
    requires start <= |h|
    ensures Replaced(h + b, start, rest + tail) == Replaced(h, start, rest) + tail
  {
    assert (h + b)[..start] == h[..start];
  }

  lemma {:induction false} HeadStays(h: string, b: string, pos: nat)
    requires pos <= |h| && h != "" && h[|h| - 1] == '\n'
    ensures ScrubFrom(h + b, pos) == ScrubFrom(h, pos) + ScrubFrom(b, 0)
    decreases |h|, |h| - pos
  {
    hide FindSeparator, SchemeStart, UrlEnd, Replaced, ScrubFrom;
    FindSeparatorHead(h, b, pos);
    ScrubStep(h, pos);
    ScrubStep(h + b, pos);
    ScrubStep(h + b, |h|);
    var sep := FindSeparator(h, pos);
    if sep < |h| {
      assert sep + 3 < |h|;
      CutHead(h, b, sep);
      var start, end := SchemeStart(h, sep), UrlEnd(h, sep + 3);
      if start == sep || end == sep + 3 {
        HeadStays(h, b, sep + 3);
      } else {
        HeadStays(h[end..], b, 0);
        assert (h + b)[end..] == h[end..] + b;
        ReplacedHead(h, b, start, ScrubFrom(h[end..], 0), ScrubFrom(b, 0));
      }
    } else {
      PrefixStays(h, b, 0);
    }
  }

  /** Scrubbing goes line by line: a URL never reaches over a newline. */
  lemma ScrubsLineByLine(a: string, b: string)
    ensures ScrubUrls(a + "\n" + b) == ScrubUrls(a + "\n") + ScrubUrls(b)
  {
    hide ScrubFrom;
    HeadStays(a + "\n", b, 0);
  }

  // ---------------------------------------------------------------- the scrubber itself

  /** Walks back over the scheme, not into what is already copied, then forward to its first letter. */
  method WalkBackToScheme(text: string, copied: nat, sep: nat) returns (start: nat)
    requires copied <= sep <= |text|
    ensures copied <= start <= sep && start == copied + SchemeStart(text[copied..], sep - copied)
  {
    ghost var rest, m: nat := text[copied..], sep - copied;
    start := sep;
    while start > copied && SchemeChar(text[start - 1])
      invariant copied <= start <= sep
      invariant RunStart(rest, m) == RunStart(rest, start - copied)
    {
      start := start - 1;
    }
    while start < sep && !Letter(text[start])
      invariant copied <= start <= sep
      invariant SchemeStart(rest, m) == FirstLetter(rest, start - copied, m)
    {
      start := start + 1;
    }
  }

  method WalkBackOverPunctuation(text: string, after: nat) returns (end: nat)
    requires after <= |text|
    ensures end == UrlEnd(text, after)
  {
    end := FindTerminator(text, after);
    while end > after && Trailing(text[end - 1])
      invariant after <= end <= |text|
      invariant DropTrailing(text, after, FindTerminator(text, after)) == DropTrailing(text, after, end)
    {
      end := end - 1;
    }
  }

  lemma SuffixCut(text: string, copied: nat, pos: nat)
    requires copied <= pos <= |text|
    ensures FindSeparator(text, pos) == copied + FindSeparator(text[copied..], pos - copied)
    ensures UrlEnd(text, pos) == copied + UrlEnd(text[copied..], pos - copied)
  {
    hide FindSeparator, FindTerminator, DropTrailing;
    var head, rest := text[..copied], text[copied..];
    assert text == head + rest;
    FindSeparatorShift(head, rest, pos - copied);
    FindTerminatorShift(head, rest, pos - copied);
    DropTrailingShift(head, rest, pos - copied, FindTerminator(rest, pos - copied));
  }

  lemma WriteUp(out: string, text: string, copied: nat, start: nat, rest: string)
    requires copied <= start <= |text|
    ensures out + Replaced(text[copied..], start - copied, rest) == (out + text[copied..start] + PLACEHOLDER) + rest
  {
    assert text[copied..][..start - copied] == text[copied..start];
  }

  /** One turn of the rewriter, seen from the text not yet copied. */
  lemma ScrubStep(t: string, pos: nat)
    requires pos <= |t|
    ensures var sep := FindSeparator(t, pos);
            && (sep == |t| ==> ScrubFrom(t, pos) == t)
            && (sep < |t| ==>
                  var start, end := SchemeStart(t, sep), UrlEnd(t, sep + 3);
                  ScrubFrom(t, pos) == if start == sep || end == sep + 3 then ScrubFrom(t, sep + 3) else Replaced(t, start, ScrubFrom(t[end..], 0)))
  {
    hide FindSeparator, SchemeStart, UrlEnd, Replaced;
  }

  /** The index-driven rewriter: `pos` is where the next separator is looked for, `copied` how much of
      the text is written or replaced. */
  method ScrubText(text: string) returns (out: string)
    ensures out == ScrubUrls(text)
  {
    hide FindSeparator, SchemeStart, UrlEnd, Replaced, ScrubFrom;
    out := "";
    var copied: nat, pos: nat := 0, 0;
    assert text[0..] == text;
    while FindSeparator(text, pos) < |text|
      invariant copied <= pos <= |text|
      invariant out + ScrubFrom(text[copied..], pos - copied) == ScrubUrls(text)
      decreases |text| - pos
    {
      var sep := FindSeparator(text, pos);
      SuffixCut(text, copied, pos);
      SuffixCut(text, copied, sep + 3);
      ScrubStep(text[copied..], pos - copied);
      var start := WalkBackToScheme(text, copied, sep);
      var end := WalkBackOverPunctuation(text, sep + 3);
      if start == sep || end == sep + 3 {
        pos := sep + 3;
      } else {
        assert text[copied..][end - copied..] == text[end..];
        WriteUp(out, text, copied, start, ScrubFrom(text[end..], 0));
        out := out + text[copied..start] + PLACEHOLDER;
        copied, pos := end, end;
      }
    }
    SuffixCut(text, copied, pos);
    ScrubStep(text[copied..], pos - copied);
    out := out + text[copied..];
  }

  // ---------------------------------------------------------------- the writer

  /** The position after the last newline; 0 when there is none. */
  function AfterLastNewline(s: string): (k: nat)
    ensures k <= |s| && (k > 0 ==> s[k - 1] == '\n') && forall j :: k <= j < |s| ==> s[j] != '\n'
  {
    if s == "" then 0 else if s[|s| - 1] == '\n' then |s| else AfterLastNewline(s[..|s| - 1])
  }

  /** What is held back, and what was delivered. */
  datatype LineBuffer = LineBuffer(pending: string, delivered: string)

  function Written(b: LineBuffer, chunk: string): LineBuffer {
    var pending := b.pending + chunk;
    var k := AfterLastNewline(pending);
    LineBuffer(pending[k..], b.delivered + ScrubUrls(pending[..k]))
  }

  function Flushed(b: LineBuffer): LineBuffer { LineBuffer("", b.delivered + ScrubUrls(b.pending)) }

  function WrittenAll(b: LineBuffer, chunks: seq<string>): LineBuffer
    decreases |chunks|
  {
    if chunks == [] then b else WrittenAll(Written(b, chunks[0]), chunks[1..])
  }

  function Joined(chunks: seq<string>): string {
    if chunks == [] then "" else chunks[0] + Joined(chunks[1..])
  }

  lemma NothingToScrub()
    ensures ScrubUrls("") == ""
  {
  }

  /** A text that ends with a newline can be scrubbed apart from what follows it. */
  lemma WholeLinesApart(lines: string, rest: string)
    requires lines == "" || lines[|lines| - 1] == '\n'
    ensures ScrubUrls(lines + rest) == ScrubUrls(lines) + ScrubUrls(rest)
  {
    hide ScrubUrls;
    if lines == "" {
      NothingToScrub();
      assert lines + rest == rest && "" + ScrubUrls(rest) == ScrubUrls(rest);
    } else {
      var a := lines[..|lines| - 1];
      assert lines == a + "\n" && lines + rest == a + "\n" + rest;
      ScrubsLineByLine(a, rest);
    }
  }

  /** After whole lines and a tail, a write delivers whole lines more and keeps the new tail. */
  lemma WriteGoesOn(lines: string, pending: string, chunk: string) returns (grown: string, tail: string)
    requires lines == "" || lines[|lines| - 1] == '\n'
    ensures Written(LineBuffer(pending, ScrubUrls(lines)), chunk) == LineBuffer(tail, ScrubUrls(grown))
    ensures grown + tail == lines + pending + chunk && (grown == "" || grown[|grown| - 1] == '\n') && '\n' !in tail
  {
    hide ScrubUrls;
    var all := pending + chunk;
    var k := AfterLastNewline(all);
    WholeLinesApart(lines, all[..k]);
    grown, tail := lines + all[..k], all[k..];
    if k == 0 { assert grown == lines; } else { assert grown[|grown| - 1] == all[k - 1]; }
  }

  lemma {:induction false} WritesThenFlush(lines: string, pending: string, chunks: seq<string>)
    requires (lines == "" || lines[|lines| - 1] == '\n') && '\n' !in pending
    ensures var b := WrittenAll(LineBuffer(pending, ScrubUrls(lines)), chunks);
            '\n' !in b.pending && Flushed(b).delivered == ScrubUrls(lines + pending + Joined(chunks))
    decreases |chunks|
  {
    hide ScrubUrls, Written;
    if chunks == [] {
      WholeLinesApart(lines, pending);
      assert lines + pending + "" == lines + pending;
    } else {
      var grown, tail := WriteGoesOn(lines, pending, chunks[0]);
      WritesThenFlush(grown, tail, chunks[1..]);
      assert grown + tail + Joined(chunks[1..]) == lines + pending + (chunks[0] + Joined(chunks[1..]));
    }
  }

  /** However a stream is cut into writes before one final flush, what is delivered is the whole
      stream scrubbed; and nothing that holds a newline is ever held back. */
  lemma {:induction false} ChunksDoNotMatter(chunks: seq<string>)
    ensures var b := WrittenAll(LineBuffer("", ""), chunks);
            '\n' !in b.pending && Flushed(b) == LineBuffer("", ScrubUrls(Joined(chunks)))
  {
    hide ScrubUrls, WrittenAll;
    NothingToScrub();
    WritesThenFlush("", "", chunks);
    assert "" + "" + Joined(chunks) == Joined(chunks);
  }

  class RedactingWriter {
    var pending: string
    var delivered: string

    ghost function View(): LineBuffer
      reads this
    {
      LineBuffer(pending, delivered)
    }

    constructor ()
      ensures View() == LineBuffer("", "")
    {
      pending, delivered := "", "";
    }

    method Emit(text: string)
      modifies this`delivered
      ensures delivered == old(delivered) + ScrubUrls(text)
    {
      var scrubbed := ScrubText(text);
      delivered := delivered + scrubbed;
    }

    method Write(chunk: string) returns (accepted: nat)
      modifies this
      ensures View() == Written(old(View()), chunk) && '\n' !in pending
      ensures accepted == |chunk|
    {
      hide ScrubUrls;
      pending := pending + chunk;
      var k := AfterLastNewline(pending);
      NothingToScrub();
      assert pending[..0] == "" && pending[0..] == pending && delivered + "" == delivered;
      if k > 0 {
        var complete := pending[..k];
        pending := pending[k..];
        Emit(complete);
      }
      accepted := |chunk|;
    }

    method Flush()
      modifies this
      ensures View() == Flushed(old(View()))
    {
      hide ScrubUrls;
      NothingToScrub();
      assert delivered + "" == delivered;
      if pending != "" {
        var tail := pending;
        pending := "";
        Emit(tail);
      }
    }
  }
}
