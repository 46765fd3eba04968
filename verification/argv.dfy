/** ffmpeg argument vectors. Every builder emits `ffmpeg <options> <output>`;
    this module gives such a vector its meaning: which options ffmpeg reads
    from it, with which arguments, and which file it writes. */
module Argv {
  import opened Wrappers

  /** One option as ffmpeg reads it: `-name` alone or `-name argument`. */
  datatype Flag = Flag(name: string, arg: Option<string>)

  /** An ffmpeg run: its options in order, then the output file. */
  datatype Invocation = Invocation(flags: seq<Flag>, output: string)

  /** How many arguments each option the tool emits takes. */
  function Arity(name: string): Option<nat> {
    if name == "-vn" then Some(0)
    else if name in {"-i", "-f", "-safe", "-c", "-ss", "-to", "-t", "-vf", "-ab", "-ar",
                     "-c:v", "-c:a", "-b:v", "-b:a", "-crf", "-qscale:v", "-acodec", "-r"}
    then Some(1)
    else None
  }

  /** A flag whose argument count agrees with the table. */
  predicate Known(f: Flag) {
    Arity(f.name) == Some(if f.arg.Some? then 1 else 0)
  }

  predicate AllKnown(flags: seq<Flag>) {
    forall i :: 0 <= i < |flags| ==> Known(flags[i])
  }

  /** `-i <file>`. */
  function Input(file: string): Flag {
    Flag("-i", Some(file))
  }

  function FlagTokens(f: Flag): seq<string> {
    [f.name] + (if f.arg.Some? then [f.arg.value] else [])
  }

  /** The flags written out as argument-vector tokens. */
  function Tokens(flags: seq<Flag>): seq<string> {
    if |flags| == 0 then [] else FlagTokens(flags[0]) + Tokens(flags[1..])
  }

  lemma {:induction false} TokensAppend(a: seq<Flag>, b: seq<Flag>)
    ensures Tokens(a + b) == Tokens(a) + Tokens(b)
  {
    if |a| > 0 {
      assert (a + b)[1..] == a[1..] + b;
      TokensAppend(a[1..], b);
    } else {
      assert a + b == b;
    }
  }

  lemma TokensCons(f: Flag, rest: seq<Flag>)
    ensures Tokens([f] + rest) == FlagTokens(f) + Tokens(rest)
  {
    assert ([f] + rest)[1..] == rest;
  }

  lemma TokensSnoc(flags: seq<Flag>, f: Flag)
    ensures Tokens(flags + [f]) == Tokens(flags) + FlagTokens(f)
  {
    TokensAppend(flags, [f]);
    TokensCons(f, []);
    assert [f] + [] == [f];
  }

  /** Tokens of short literal flag lists, as the builders write them. */
  lemma TokensLiteral(a: Flag, b: Flag, c: Flag, d: Flag)
    ensures Tokens([a]) == FlagTokens(a)
    ensures Tokens([a, b]) == FlagTokens(a) + FlagTokens(b)
    ensures Tokens([a, b, c]) == FlagTokens(a) + FlagTokens(b) + FlagTokens(c)
    ensures Tokens([a, b, c, d]) == FlagTokens(a) + FlagTokens(b) + FlagTokens(c) + FlagTokens(d)
  {
    TokensSnoc([], a);
    assert [] + [a] == [a];
    TokensSnoc([a], b);
    assert [a] + [b] == [a, b];
    TokensSnoc([a, b], c);
    assert [a, b] + [c] == [a, b, c];
    TokensSnoc([a, b, c], d);
    assert [a, b, c] + [d] == [a, b, c, d];
  }

  /** The argument vector of an invocation. */
  function Render(inv: Invocation): seq<string> {
    ["ffmpeg"] + Tokens(inv.flags) + [inv.output]
  }

  /** Reads tokens as options the way ffmpeg does: a known option name,
      followed by its argument when it takes one. */
  function ParseFlags(ts: seq<string>): Option<seq<Flag>>
    decreases |ts|
  {
    if |ts| == 0 then Some([])
    else match Arity(ts[0])
      case None => None
      case Some(n) =>
        if n == 0 then
          match ParseFlags(ts[1..])
          case None => None
          case Some(rest) => Some([Flag(ts[0], None)] + rest)
        else if |ts| < 2 then None
        else
          match ParseFlags(ts[2..])
          case None => None
          case Some(rest) => Some([Flag(ts[0], Some(ts[1]))] + rest)
  }

  /** Reads a whole argument vector: the program, the options, the output. */
  function Parse(argv: seq<string>): Option<Invocation> {
    if |argv| < 2 || argv[0] != "ffmpeg" then None
    else match ParseFlags(argv[1..|argv| - 1])
      case None => None
      case Some(flags) => Some(Invocation(flags, argv[|argv| - 1]))
  }

  /** Writing known flags out and reading them back gives the same flags,
      whatever their arguments are (an argument that looks like an option,
      such as a codec called "-vn", is still read as an argument). */
  lemma {:induction false} ParseTokens(flags: seq<Flag>)
    requires AllKnown(flags)
    ensures ParseFlags(Tokens(flags)) == Some(flags)
  {
    if |flags| > 0 {
      var f := flags[0];
      assert Known(f);
      assert AllKnown(flags[1..]);
      ParseTokens(flags[1..]);
      var ts := Tokens(flags);
      assert ts == FlagTokens(f) + Tokens(flags[1..]);
      if f.arg.Some? {
        assert ts[2..] == Tokens(flags[1..]);
      } else {
        assert ts[1..] == Tokens(flags[1..]);
      }
      assert [f] + flags[1..] == flags;
    }
  }

  /** The argument vector of an invocation reads back as that invocation. */
  lemma RenderParse(inv: Invocation)
    requires AllKnown(inv.flags)
    ensures Parse(Render(inv)) == Some(inv)
  {
    var argv := Render(inv);
    assert argv[1..|argv| - 1] == Tokens(inv.flags);
    ParseTokens(inv.flags);
  }

  /** The option `name` as ffmpeg acts on it: `None` when no flag carries the
      name, otherwise the argument of the last flag that does (`Some(None)`
      for a flag without an argument); a repeated option's last value wins. */
  function Lookup(flags: seq<Flag>, name: string): Option<Option<string>> {
    if |flags| == 0 then None
    else
      var later := Lookup(flags[1..], name);
      if later.Some? then later
      else if flags[0].name == name then Some(flags[0].arg)
      else None
  }

  lemma {:induction false} LookupAppend(a: seq<Flag>, b: seq<Flag>, name: string)
    ensures Lookup(a + b, name) == if Lookup(b, name).Some? then Lookup(b, name) else Lookup(a, name)
  {
    if |a| > 0 {
      assert (a + b)[1..] == a[1..] + b;
      LookupAppend(a[1..], b, name);
    } else {
      assert a + b == b;
    }
  }

  lemma LookupOne(f: Flag, name: string)
    ensures Lookup([f], name) == if f.name == name then Some(f.arg) else None
  {
    assert [f][1..] == [];
  }

  /** Lookups in short literal flag lists. */
  lemma LookupLiteral(a: Flag, b: Flag, c: Flag, d: Flag, name: string)
    ensures Lookup([a, b], name) == if Lookup([b], name).Some? then Lookup([b], name) else Lookup([a], name)
    ensures Lookup([a, b, c], name) == if Lookup([c], name).Some? then Lookup([c], name) else Lookup([a, b], name)
    ensures Lookup([a, b, c, d], name)
            == if Lookup([d], name).Some? then Lookup([d], name) else Lookup([a, b, c], name)
  {
    LookupAppend([a], [b], name);
    assert [a] + [b] == [a, b];
    LookupAppend([a, b], [c], name);
    assert [a, b] + [c] == [a, b, c];
    LookupAppend([a, b, c], [d], name);
    assert [a, b, c] + [d] == [a, b, c, d];
  }

  /** The option `name` of an argument vector, `None` also when ffmpeg could
      not read the vector. */
  function Arg(argv: seq<string>, name: string): Option<Option<string>> {
    match Parse(argv)
    case None => None
    case Some(inv) => Lookup(inv.flags, name)
  }
}
