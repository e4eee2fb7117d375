/** Named placeholders in translated text: one pass from left to right, in which a value is never
    looked at again. */
module I18n {
  import opened Prelude

  datatype Arg = Arg(name: string, value: string)

  /** A template as a translator means it. */
  datatype Part = Literal(text: string) | Hole(name: string)

  /** The position of the first `c`, or the length when there is none. */
  function IndexOf(s: string, c: char): (i: nat)
    ensures i <= |s| && (i < |s| ==> s[i] == c) && forall j :: 0 <= j < i ==> s[j] != c
  {
    if s == [] || s[0] == c then 0 else 1 + IndexOf(s[1..], c)
  }

  /** The value of the first argument with that name. */
  function Lookup(args: seq<Arg>, name: string): Option<string> {
    if args == [] then None else if args[0].name == name then Some(args[0].value) else Lookup(args[1..], name)
  }

  /** The placeholder that starts `tail`, if it is closed and names an argument: the position of its
      closing brace, and the value. */
  function Hit(tail: string, args: seq<Arg>): (hit: Option<(nat, string)>)
    requires tail != [] && tail[0] == '{'
    ensures hit.Some? ==> 0 < hit.value.0 < |tail|
  {
    var close := IndexOf(tail, '}');
    if close == |tail| then None
    else
      var value := Lookup(args, tail[1..close]);
      if value.Some? then Some((close, value.value)) else None
  }

  function Substitute(text: string, args: seq<Arg>): string
    decreases |text|
  {
    if text == [] then []
    else if text[0] != '{' then [text[0]] + Substitute(text[1..], args)
    else
      match Hit(text, args)
      case Some((close, value)) => value + Substitute(text[close + 1..], args)
      case None => ['{'] + Substitute(text[1..], args)
  }

  function Print(parts: seq<Part>): string {
    if parts == [] then []
    else Spelled(parts[0]) + Print(parts[1..])
  }

  function Spelled(p: Part): string {
    match p
    case Literal(text) => text
    case Hole(name) => ['{'] + name + ['}']
  }

  /** What a template means: every hole is its value, or stays as it is written. */
  function Eval(parts: seq<Part>, args: seq<Arg>): string {
    if parts == [] then []
    else Meant(parts[0], args) + Eval(parts[1..], args)
  }

  function Meant(p: Part, args: seq<Arg>): string {
    match p
    case Literal(text) => text
    case Hole(name) => Lookup(args, name).GetOr(Spelled(p))
  }

  /** Literals have no opening brace, names have no brace at all. */
  predicate PrintablePart(p: Part) {
    match p
    case Literal(text) => '{' !in text
    case Hole(name) => '{' !in name && '}' !in name
  }

  predicate Printable(parts: seq<Part>) { forall p :: p in parts ==> PrintablePart(p) }

  lemma {:induction false} LiteralStays(text: string, rest: string, args: seq<Arg>)
    requires '{' !in text
    ensures Substitute(text + rest, args) == text + Substitute(rest, args)
  {
    if text == [] {
      assert text + rest == rest;
    } else {
      assert (text + rest)[1..] == text[1..] + rest;
      LiteralStays(text[1..], rest, args);
      assert [text[0]] + (text[1..] + Substitute(rest, args)) == text + Substitute(rest, args);
    }
  }

  lemma ClosesAt(name: string, rest: string)
    requires '}' !in name
    ensures IndexOf(['{'] + name + ['}'] + rest, '}') == |name| + 1
  {
    var tail := ['{'] + name + ['}'] + rest;
    assert tail[|name| + 1] == '}';
    forall j | 0 <= j < |name| + 1 ensures tail[j] != '}' {
      if j > 0 { assert tail[j] == name[j - 1]; }
    }
  }

  lemma HoleIsFilled(name: string, rest: string, args: seq<Arg>)
    requires '{' !in name && '}' !in name
    ensures Substitute(['{'] + name + ['}'] + rest, args) == Lookup(args, name).GetOr(['{'] + name + ['}']) + Substitute(rest, args)
  {
    var tail := ['{'] + name + ['}'] + rest;
    ClosesAt(name, rest);
    assert tail[1..|name| + 1] == name && tail[|name| + 2..] == rest;
    if Lookup(args, name).None? {
      assert tail[1..] == (name + ['}']) + rest;
      LiteralStays(name + ['}'], rest, args);
      assert ['{'] + ((name + ['}']) + Substitute(rest, args)) == (['{'] + name + ['}']) + Substitute(rest, args);
    }
  }

  /** Substituting into a printed template is evaluating it: known holes become their value, whatever
      braces that holds; unknown ones stay as written. */
  lemma {:induction false} SubstituteIsEval(parts: seq<Part>, args: seq<Arg>)
    requires Printable(parts)
    ensures Substitute(Print(parts), args) == Eval(parts, args)
  {
    if parts != [] {
      var rest := Print(parts[1..]);
      assert PrintablePart(parts[0]);
      SubstituteIsEval(parts[1..], args);
      match parts[0]
      case Literal(text) => LiteralStays(text, rest, args);
      case Hole(name) =>
        HoleIsFilled(name, rest, args);
        assert Print(parts) == ['{'] + name + ['}'] + rest;
    }
  }

  /** Any text at all, printable or not: it splits into stretches that are kept and placeholders that
      are filled, in order, and nothing else happens to it. */
  lemma {:induction false} EveryTextSplits(text: string, args: seq<Arg>) returns (parts: seq<Part>)
    ensures Print(parts) == text && Eval(parts, args) == Substitute(text, args)
    ensures forall p :: p in parts && p.Hole? ==> Lookup(args, p.name).Some? && '}' !in p.name
    decreases |text|
  {
    hide Print, Eval;
    if text == [] {
      parts := [];
      NoParts(args);
    } else if text[0] == '{' && Hit(text, args).Some? {
      var close := Hit(text, args).value.0;
      var rest := EveryTextSplits(text[close + 1..], args);
      parts := [Hole(text[1..close])] + rest;
      OnePart(Hole(text[1..close]), rest, args);
      assert text == ['{'] + text[1..close] + ['}'] + text[close + 1..];
      assert text[1..close] == text[1..][..close - 1];
    } else {
      var rest := EveryTextSplits(text[1..], args);
      parts := [Literal([text[0]])] + rest;
      OnePart(Literal([text[0]]), rest, args);
      assert [text[0]] + text[1..] == text;
    }
  }

  lemma NoParts(args: seq<Arg>)
    ensures Print([]) == [] && Eval([], args) == []
  {
  }

  lemma OnePart(p: Part, rest: seq<Part>, args: seq<Arg>)
    ensures Print([p] + rest) == Spelled(p) + Print(rest) && Eval([p] + rest, args) == Meant(p, args) + Eval(rest, args)
  {
    assert ([p] + rest)[1..] == rest;
  }

  /** What one turn of the pass does to the text from its next opening brace on. */
  lemma NextBrace(rest: string, args: seq<Arg>)
    requires IndexOf(rest, '{') < |rest|
    ensures var open := IndexOf(rest, '{');
            Substitute(rest, args) == rest[..open] + Substitute(rest[open..], args)
  {
    var open := IndexOf(rest, '{');
    assert rest == rest[..open] + rest[open..];
    LiteralStays(rest[..open], rest[open..], args);
  }

  lemma LastStretch(rest: string, args: seq<Arg>)
    requires IndexOf(rest, '{') == |rest|
    ensures Substitute(rest, args) == rest
  {
    assert rest + [] == rest;
    LiteralStays(rest, [], args);
  }

  lemma Filled(tail: string, args: seq<Arg>)
    requires tail != [] && tail[0] == '{'
    ensures Hit(tail, args).Some? ==> Substitute(tail, args) == Hit(tail, args).value.1 + Substitute(tail[Hit(tail, args).value.0 + 1..], args)
    ensures Hit(tail, args).None? ==> Substitute(tail, args) == ['{'] + Substitute(tail[1..], args)
  {
    hide Hit;
  }

  /** The placeholder pass, from one opening brace to the next. */
  method SubstituteInto(text: string, args: seq<Arg>) returns (out: string)
    ensures out == Substitute(text, args)
  {
    hide Substitute, Hit;
    out := [];
    var rest := text;
    assert [] + Substitute(text, args) == Substitute(text, args);
    while IndexOf(rest, '{') < |rest|
      invariant out + Substitute(rest, args) == Substitute(text, args)
      decreases |rest|
    {
      var open := IndexOf(rest, '{');
      var tail := rest[open..];
      NextBrace(rest, args);
      Filled(tail, args);
      Regroup(out, rest[..open], Substitute(tail, args));
      out := out + rest[..open];
      var hit := Hit(tail, args);
      match hit {
        case Some((close, value)) =>
          Regroup(out, value, Substitute(tail[close + 1..], args));
          out := out + value;
          rest := tail[close + 1..];
        case None =>
          Regroup(out, ['{'], Substitute(tail[1..], args));
          out := out + ['{'];
          rest := tail[1..];
      }
    }
    LastStretch(rest, args);
    out := out + rest;
  }

  /** The arguments of a counted text: the count comes first. */
  function WithCount(count: string, args: seq<Arg>): seq<Arg> { [Arg("count", count)] + args }

  /** `{count}` is always the count, even when an argument is called that too; every other name means
      what the arguments say. */
  lemma CountWins(count: string, args: seq<Arg>, name: string)
    ensures Lookup(WithCount(count, args), name) == if name == "count" then Some(count) else Lookup(args, name)
  {
    assert WithCount(count, args)[1..] == args;
  }

  /** What a counted template means: `{count}` is the count, every other hole what the arguments say,
      or itself. */
  function EvalCounted(parts: seq<Part>, count: string, args: seq<Arg>): string {
    if parts == [] then []
    else
      (match parts[0]
       case Literal(text) => text
       case Hole(name) => if name == "count" then count else Lookup(args, name).GetOr(['{'] + name + ['}']))
      + EvalCounted(parts[1..], count, args)
  }

  /** A counted text of any printable template: every `{count}` is the count, even when an argument is
      called that too, and the other placeholders are filled from the arguments in the same pass. */
  lemma {:induction false} CountedText(parts: seq<Part>, count: string, args: seq<Arg>)
    requires Printable(parts)
    ensures Substitute(Print(parts), WithCount(count, args)) == EvalCounted(parts, count, args)
  {
    SubstituteIsEval(parts, WithCount(count, args));
    SameMeaning(parts, count, args);
  }

  lemma {:induction false} SameMeaning(parts: seq<Part>, count: string, args: seq<Arg>)
    ensures Eval(parts, WithCount(count, args)) == EvalCounted(parts, count, args)
  {
    if parts != [] {
      SameMeaning(parts[1..], count, args);
      if parts[0].Hole? { CountWins(count, args, parts[0].name); }
    }
  }
}
