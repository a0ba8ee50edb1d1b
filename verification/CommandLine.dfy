/** Windows command lines: arguments are joined into one string, quoted so that
    the C runtime splits it into the same arguments again. */
module CommandLine {
  import opened Common

  const QUOTE: char := '\"'
  const BACKSLASH: char := '\\'

  function Backslashes(n: nat): (s: string)
    ensures |s| == n
    ensures forall i :: 0 <= i < n ==> s[i] == BACKSLASH
  {
    seq(n, _ => BACKSLASH)
  }

  // ----- How the C runtime splits a command line -----

  /** One argument and what follows it. `bs` backslashes are pending: before a
      quote every pair stands for one backslash and an odd one escapes the quote;
      elsewhere they are literal. Inside quotes a doubled quote is literal. */
  function ParseArg(s: string, inQuotes: bool, bs: nat): (r: (string, string))
    ensures |r.1| <= |s|
    ensures s != [] && !Blank(s[0]) ==> |r.1| < |s|
    decreases |s|
  {
    if s == [] then (Backslashes(bs), [])
    else if s[0] == BACKSLASH then ParseArg(s[1..], inQuotes, bs + 1)
    else if s[0] == QUOTE then
      if bs % 2 == 1 then
        var (a, r) := ParseArg(s[1..], inQuotes, 0);
        (Backslashes(bs / 2) + [QUOTE] + a, r)
      else if inQuotes && |s| > 1 && s[1] == QUOTE then
        var (a, r) := ParseArg(s[2..], inQuotes, 0);
        (Backslashes(bs / 2) + [QUOTE] + a, r)
      else
        var (a, r) := ParseArg(s[1..], !inQuotes, 0);
        (Backslashes(bs / 2) + a, r)
    else if Blank(s[0]) && !inQuotes then (Backslashes(bs), s)
    else
      var (a, r) := ParseArg(s[1..], inQuotes, 0);
      (Backslashes(bs) + [s[0]] + a, r)
  }

  function ParseArgs(s: string): seq<string>
    decreases |s|
  {
    if s == [] then []
    else if Blank(s[0]) then ParseArgs(s[1..])
    else
      var (a, r) := ParseArg(s, false, 0);
      [a] + ParseArgs(r)
  }

  // ----- Serialization -----

  /** An argument between quotes, with `bs` pending backslashes. */
  function Escape(arg: string, bs: nat): string {
    if arg == [] then Backslashes(2 * bs)
    else if arg[0] == QUOTE then Backslashes(2 * bs) + [BACKSLASH, QUOTE] + Escape(arg[1..], 0)
    else if arg[0] == BACKSLASH then Escape(arg[1..], bs + 1)
    else Backslashes(bs) + [arg[0]] + Escape(arg[1..], 0)
  }

  function Quoted(arg: string): string {
    [QUOTE] + Escape(arg, 0) + [QUOTE]
  }

  function Joined(argv: seq<string>): string {
    if argv == [] then []
    else if |argv| == 1 then Quoted(argv[0])
    else Quoted(argv[0]) + [' '] + Joined(argv[1..])
  }

  /** The string buffer under construction. Appending a character also writes the
      terminator; a new buffer has none. */
  class StrBuf {
    var s: string
    var terminated: bool

    constructor ()
      ensures s == [] && !terminated
    {
      s, terminated := [], false;
    }

    method Append(c: char)
      modifies this
      ensures s == old(s) + [c] && terminated
    {
      s, terminated := s + [c], true;
    }

    /** Appends backslashes: each once, or each twice. */
    method AppendBackslashes(count: nat, twice: bool)
      modifies this
      ensures s == old(s) + Backslashes(if twice then 2 * count else count)
      ensures old(terminated) ==> terminated
    {
      var n := count;
      while n > 0
        invariant 0 <= n <= count
        invariant s == old(s) + Backslashes(if twice then 2 * (count - n) else count - n)
        invariant old(terminated) ==> terminated
      {
        Append(BACKSLASH);
        if twice {
          Append(BACKSLASH);
        }
        n := n - 1;
      }
    }

    method AppendQuoted(arg: string)
      modifies this
      ensures s == old(s) + Quoted(arg) && terminated
    {
      Append(QUOTE);
      ghost var start := s;
      var backslashes := 0;
      var i := 0;
      while i < |arg|
        invariant 0 <= i <= |arg| && terminated
        invariant s + Escape(arg[i..], backslashes) == start + Escape(arg, 0)
      {
        ghost var before := s;
        ghost var rest := arg[i..];
        assert rest[0] == arg[i] && rest[1..] == arg[i + 1..];
        if arg[i] == QUOTE {
          AppendBackslashes(backslashes, true);
          Append(BACKSLASH);
          Append(QUOTE);
          assert s == before + (Backslashes(2 * backslashes) + [BACKSLASH, QUOTE]);
          backslashes := 0;
        } else if arg[i] == BACKSLASH {
          backslashes := backslashes + 1;
        } else {
          AppendBackslashes(backslashes, false);
          Append(arg[i]);
          assert s == before + (Backslashes(backslashes) + [arg[i]]);
          backslashes := 0;
        }
        i := i + 1;
      }
      AppendBackslashes(backslashes, true);
      assert s == start + Escape(arg, 0);
      Append(QUOTE);
    }
  }

  /** Serializes the arguments. The result is a C string exactly when there is at
      least one argument; then it splits into the same arguments again. */
  method SerializeWindows(argv: seq<string>) returns (s: string, terminated: bool)
    ensures s == Joined(argv)
    ensures ParseArgs(s) == argv
    ensures terminated <==> argv != []
  {
    var buf := new StrBuf();
    var i := 0;
    while i < |argv|
      invariant 0 <= i <= |argv|
      invariant buf.terminated <==> i > 0
      invariant buf.s + Joined(argv[i..]) == Joined(argv)
      invariant fresh(buf)
    {
      ghost var before := buf.s;
      ghost var rest := argv[i..];
      assert rest[0] == argv[i] && rest[1..] == argv[i + 1..];
      buf.AppendQuoted(argv[i]);
      i := i + 1;
      if i < |argv| {
        buf.Append(' ');
        assert buf.s == before + (Quoted(argv[i - 1]) + [' ']);
      }
    }
    RoundTrip(argv);
    return buf.s, buf.terminated;
  }

  // ----- The round trip -----

  /** Backslashes only raise the pending count. */
  lemma {:induction false} ParseBackslashes(k: nat, t: string, inQuotes: bool, bs: nat)
    ensures ParseArg(Backslashes(k) + t, inQuotes, bs) == ParseArg(t, inQuotes, bs + k)
  {
    if k == 0 {
      assert Backslashes(k) + t == t;
    } else {
      assert (Backslashes(k) + t)[1..] == Backslashes(k - 1) + t;
      ParseBackslashes(k - 1, t, inQuotes, bs + 1);
    }
  }

  /** What may follow a quoted argument. */
  predicate Boundary(rest: string) {
    rest == [] || Blank(rest[0])
  }

  /** The end of a quoted argument: doubled backslashes and the closing quote. */
  lemma ParseEnd(bs: nat, rest: string)
    requires Boundary(rest)
    ensures ParseArg(Backslashes(2 * bs) + ([QUOTE] + rest), true, 0) == (Backslashes(bs), rest)
  {
    var t := [QUOTE] + rest;
    ParseBackslashes(2 * bs, t, true, 0);
    assert t[1..] == rest;
    assert Backslashes(bs) + [] == Backslashes(bs);
  }

  /** An escaped quote after doubled backslashes. */
  lemma ParseEscapedQuote(bs: nat, more: string)
    ensures var r := ParseArg(more, true, 0);
            ParseArg(Backslashes(2 * bs) + ([BACKSLASH, QUOTE] + more), true, 0) ==
            (Backslashes(bs) + [QUOTE] + r.0, r.1)
  {
    var t := [BACKSLASH, QUOTE] + more;
    var u := [QUOTE] + more;
    assert ParseArg(t, true, 2 * bs) == ParseArg(u, true, 2 * bs + 1) by {
      assert t[0] == BACKSLASH && t[1..] == u;
    }
    hide Backslashes;
    ParseOddQuote(bs, more);
    hide ParseArg;
    ParseBackslashes(2 * bs, t, true, 0);
  }

  lemma ParseOddQuote(bs: nat, more: string)
    ensures var r := ParseArg(more, true, 0);
            ParseArg([QUOTE] + more, true, 2 * bs + 1) == (Backslashes(bs) + [QUOTE] + r.0, r.1)
  {
    hide Backslashes;
    var u := [QUOTE] + more;
    assert u[0] == QUOTE && u[1..] == more;
    assert (2 * bs + 1) / 2 == bs;
  }

  /** Any other character, after literal backslashes. */
  lemma ParseLiteral(bs: nat, c: char, more: string)
    requires c != QUOTE && c != BACKSLASH
    ensures var r := ParseArg(more, true, 0);
            ParseArg(Backslashes(bs) + ([c] + more), true, 0) == (Backslashes(bs) + [c] + r.0, r.1)
  {
    var t := [c] + more;
    ParseBackslashes(bs, t, true, 0);
    assert t[1..] == more;
  }

  /** Inside quotes, an escaped argument followed by the closing quote is read
      back exactly. */
  lemma {:induction false} ParseEscaped(arg: string, bs: nat, rest: string)
    requires Boundary(rest)
    ensures ParseArg(Escape(arg, bs) + ([QUOTE] + rest), true, 0) == (Backslashes(bs) + arg, rest)
    decreases |arg|
  {
    hide ParseArg, Backslashes;
    var tail := [QUOTE] + rest;
    if arg == [] {
      ParseEnd(bs, rest);
      assert Backslashes(bs) + arg == Backslashes(bs);
    } else if arg[0] == BACKSLASH {
      ParseEscaped(arg[1..], bs + 1, rest);
      assert Backslashes(bs + 1) + arg[1..] == Backslashes(bs) + arg;
    } else {
      var more := Escape(arg[1..], 0) + tail;
      ParseEscaped(arg[1..], 0, rest);
      assert Backslashes(0) + arg[1..] == arg[1..];
      assert Backslashes(bs) + [arg[0]] + arg[1..] == Backslashes(bs) + arg;
      if arg[0] == QUOTE {
        assert Escape(arg, bs) + tail == Backslashes(2 * bs) + ([BACKSLASH, QUOTE] + more);
        ParseEscapedQuote(bs, more);
      } else {
        assert Escape(arg, bs) + tail == Backslashes(bs) + ([arg[0]] + more);
        ParseLiteral(bs, arg[0], more);
      }
    }
  }

  lemma ParseQuoted(arg: string, rest: string)
    requires Boundary(rest)
    ensures ParseArg(Quoted(arg) + rest, false, 0) == (arg, rest)
  {
    var body := Escape(arg, 0) + ([QUOTE] + rest);
    assert (Quoted(arg) + rest)[0] == QUOTE && (Quoted(arg) + rest)[1..] == body;
    ParseEscaped(arg, 0, rest);
    assert Backslashes(0) + arg == arg;
    assert [] + arg == arg;
  }

  /** Main theorem: for every list of arguments, splitting the serialized command
      line gives the same list. */
  lemma {:induction false} RoundTrip(argv: seq<string>)
    ensures ParseArgs(Joined(argv)) == argv
  {
    if argv != [] {
      var line := Joined(argv);
      var rest := if |argv| == 1 then [] else [' '] + Joined(argv[1..]);
      assert line == Quoted(argv[0]) + rest;
      ParseQuoted(argv[0], rest);
      RoundTrip(argv[1..]);
      if |argv| > 1 {
        assert rest[1..] == Joined(argv[1..]);
      }
      assert argv == [argv[0]] + argv[1..];
    }
  }

  // ----- The program name -----

  /** The C runtime reads the program name differently: up to the next quote,
      verbatim. */
  function UntilQuote(s: string): string {
    if s == [] || s[0] == QUOTE then [] else [s[0]] + UntilQuote(s[1..])
  }

  function ProgramName(line: string): string
    requires line != [] && line[0] == QUOTE
  {
    UntilQuote(line[1..])
  }

  lemma {:induction false} UntilFirstQuote(s: string, t: string)
    requires QUOTE !in s
    ensures UntilQuote(s + [QUOTE] + t) == s
  {
    var all := s + [QUOTE] + t;
    if s == [] {
      assert all[0] == QUOTE;
    } else {
      assert all[1..] == s[1..] + [QUOTE] + t;
      UntilFirstQuote(s[1..], t);
    }
  }

  lemma {:induction false} NoQuoteInName(s: string)
    ensures QUOTE !in UntilQuote(s)
  {
    if s != [] && s[0] != QUOTE {
      NoQuoteInName(s[1..]);
    }
  }

  lemma SameFront(front: string, x: string, y: string)
    ensures front + x == front + y <==> x == y
  {
    assert (front + x)[|front|..] == x && (front + y)[|front|..] == y;
  }

  lemma {:induction false} EscapeAddsNoQuote(arg: string, bs: nat)
    requires QUOTE !in arg
    ensures QUOTE !in Escape(arg, bs)
    decreases |arg|
  {
    if arg != [] {
      var tail := arg[1..];
      assert QUOTE !in tail;
      EscapeAddsNoQuote(tail, if arg[0] == BACKSLASH then bs + 1 else 0);
    }
  }

  /** Without quotes, escaping changes an argument only by doubling the
      backslashes at its end. */
  lemma {:induction false} EscapeWithoutQuotes(arg: string, bs: nat)
    requires QUOTE !in arg
    ensures Escape(arg, bs) == Backslashes(bs) + arg <==>
            (if arg == [] then bs == 0 else arg[|arg| - 1] != BACKSLASH)
    decreases |arg|
  {
    hide Backslashes;
    if arg == [] {
      assert |Escape(arg, bs)| == 2 * bs && |Backslashes(bs) + arg| == bs;
    } else {
      var tail := arg[1..];
      assert QUOTE !in tail;
      if arg[0] == BACKSLASH {
        EscapeWithoutQuotes(tail, bs + 1);
        assert Backslashes(bs + 1) + tail == Backslashes(bs) + arg;
      } else {
        EscapeWithoutQuotes(tail, 0);
        var front := Backslashes(bs) + [arg[0]];
        assert Backslashes(0) + tail == tail;
        assert Backslashes(bs) + arg == front + tail;
        SameFront(front, Escape(tail, 0), tail);
      }
    }
  }

  /** Under the rule for the program name, the first argument is recovered exactly
      when it contains no quote and does not end with a backslash. */
  lemma ProgramNameRecovered(argv: seq<string>)
    requires argv != []
    ensures Joined(argv) != [] && Joined(argv)[0] == QUOTE
    ensures ProgramName(Joined(argv)) == argv[0] <==>
            QUOTE !in argv[0] && (argv[0] == [] || argv[0][|argv[0]| - 1] != BACKSLASH)
  {
    var arg := argv[0];
    var line := Joined(argv);
    var rest := if |argv| == 1 then [] else [' '] + Joined(argv[1..]);
    var body := Escape(arg, 0) + [QUOTE] + rest;
    assert line == [QUOTE] + body && line[1..] == body;
    NoQuoteInName(body);
    if QUOTE !in arg {
      EscapeWithoutQuotes(arg, 0);
      EscapeAddsNoQuote(arg, 0);
      UntilFirstQuote(Escape(arg, 0), rest);
      assert Backslashes(0) + arg == arg;
    }
  }
}
