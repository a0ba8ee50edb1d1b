/** Parsing `adb devices -l`. A device serial may contain blanks and even state
    words, so a line is read backwards up to the device state. The parser works in
    place: it cuts strings by writing terminators into the text. */
module AdbParser {
  import opened Common

  datatype Device = Device(serial: string, state: string, model: Option<string>)

  const NUL: char := '\0'
  const MODEL_PREFIX := "model:"
  const SERVER_PREFIX := "adb server"
  const HEADER := "List of devices attached"

  predicate IsState(s: string) {
    || s == "device" || s == "unauthorized" || s == "offline" || s == "bootloader" || s == "host"
    || s == "recovery" || s == "rescue" || s == "sideload" || s == "authorizing" || s == "connecting"
    || s == "detached"
  }

  predicate StartsWith(s: string, prefix: string)
    ensures StartsWith(s, prefix) ==> |prefix| <= |s|
  {
    prefix <= s
  }

  // ----- The parser as a function of the text -----

  /** The string without trailing blanks. */
  function RStrip(s: string): (r: string)
    ensures r <= s
  {
    if s != [] && Blank(s[|s| - 1]) then RStrip(s[..|s| - 1]) else s
  }

  /** Where the token at the end of the string starts. */
  function TokenStart(s: string): (i: nat)
    ensures i <= |s|
  {
    if s != [] && !Blank(s[|s| - 1]) then TokenStart(s[..|s| - 1]) else |s|
  }

  /** Reads tokens backwards until a device state: the text before the state, the
      state, and the leftmost model seen. */
  function ScanBack(s: string, model: Option<string>): (r: Option<(string, string, Option<string>)>)
    decreases |s|
  {
    var t := RStrip(s);
    var start := TokenStart(t);
    if start == |t| then None
    else
      var token := t[start..];
      if StartsWith(token, MODEL_PREFIX) then ScanBack(t[..start], Some(token[|MODEL_PREFIX|..]))
      else if IsState(token) then Some((t[..start], token, model))
      else ScanBack(t[..start], model)
  }

  function ParseLine(line: string): Option<Device> {
    if StartsWith(line, "*") || StartsWith(line, SERVER_PREFIX) then None
    else
      var r := ScanBack(line, None);
      if r.None? then None
      else
        var (before, state, model) := r.value;
        var serial := RStrip(before);
        if serial == [] then None else Some(Device(serial, state, model))
  }

  /** The line without trailing carriage returns. */
  function StripCr(s: string): (r: string)
    ensures r <= s
  {
    if s != [] && s[|s| - 1] == '\r' then StripCr(s[..|s| - 1]) else s
  }

  /** Length of the first line. */
  function LineLength(text: string): (n: nat)
    ensures n <= |text|
    ensures forall i :: 0 <= i < n ==> text[i] != '\n'
    ensures n < |text| ==> text[n] == '\n'
  {
    if text == [] || text[0] == '\n' then 0 else LineLength(text[1..]) + 1
  }

  /** What follows the first line. */
  function NextLines(text: string): (rest: string)
    ensures text != [] ==> |rest| < |text|
  {
    var n := LineLength(text);
    if n < |text| then text[n + 1..] else []
  }

  /** The devices listed after the header line, and whether there was one. */
  function ParseText(text: string, found: bool): (bool, seq<Device>)
    decreases |text|
  {
    if text == [] then (found, [])
    else
      var line := text[..LineLength(text)];
      var rest := NextLines(text);
      if !found then ParseText(rest, StartsWith(line, HEADER))
      else
        var (ok, devices) := ParseText(rest, true);
        match ParseLine(StripCr(line))
        case None => (ok, devices)
        case Some(d) => (ok, [d] + devices)
  }

  // ----- The round trip of one line -----

  ghost predicate AllBlank(s: string) {
    forall i :: 0 <= i < |s| ==> Blank(s[i])
  }

  ghost predicate NoBlank(s: string) {
    forall i :: 0 <= i < |s| ==> !Blank(s[i])
  }

  /** A blank separator followed by a token. */
  datatype Field = Field(sep: string, token: string)

  /** The states adb prints. */
  const STATES := {"device", "unauthorized", "offline", "bootloader", "host", "recovery", "rescue", "sideload",
                   "authorizing", "connecting", "detached"}

  lemma StateWords(s: string)
    ensures IsState(s) <==> s in STATES
  {
  }

  ghost predicate FieldOk(f: Field) {
    f.sep != [] && AllBlank(f.sep) && f.token != [] && NoBlank(f.token) && f.token !in STATES
  }

  datatype Row = Row(serial: string, sep: string, state: string, fields: seq<Field>, trailing: string)

  ghost function Fields(fields: seq<Field>): string {
    if fields == [] then []
    else Fields(fields[..|fields| - 1]) + fields[|fields| - 1].sep + fields[|fields| - 1].token
  }

  ghost function Print(r: Row): string {
    r.serial + r.sep + r.state + Fields(r.fields) + r.trailing
  }

  /** A line as adb prints it: the serial may contain anything but must not end
      with a blank; the words after the state are not states. */
  ghost predicate RowOk(r: Row) {
    && r.serial != [] && !Blank(r.serial[|r.serial| - 1])
    && r.sep != [] && AllBlank(r.sep)
    && r.state in STATES
    && (forall i :: 0 <= i < |r.fields| ==> FieldOk(r.fields[i]))
    && AllBlank(r.trailing)
    && !("*" <= Print(r)) && !("adb server" <= Print(r))
  }

  /** The model announced first. */
  ghost function FirstModel(fields: seq<Field>, otherwise: Option<string>): Option<string> {
    if fields == [] then otherwise
    else
      var f := fields[|fields| - 1].token;
      FirstModel(fields[..|fields| - 1],
                 if "model:" <= f then Some(f[6..]) else otherwise)
  }

  lemma {:induction false} RStripBlanks(s: string, b: string)
    requires AllBlank(b) && (s == [] || !Blank(s[|s| - 1]))
    ensures RStrip(s + b) == s
    decreases |b|
  {
    if b == [] {
      assert s + b == s;
    } else {
      assert (s + b)[..|s + b| - 1] == s + b[..|b| - 1];
      RStripBlanks(s, b[..|b| - 1]);
    }
  }

  lemma {:induction false} TokenStartAfter(s: string, token: string)
    requires NoBlank(token) && (s == [] || Blank(s[|s| - 1]))
    ensures TokenStart(s + token) == |s|
    decreases |token|
  {
    if token == [] {
      assert s + token == s;
    } else {
      assert (s + token)[..|s + token| - 1] == s + token[..|token| - 1];
      TokenStartAfter(s, token[..|token| - 1]);
    }
  }

  /** One backward step over a token. */
  lemma ScanToken(before: string, sep: string, token: string, b: string, model: Option<string>)
    requires AllBlank(b) && AllBlank(sep) && sep != [] && NoBlank(token) && token != []
    ensures ScanBack(before + sep + token + b, model) ==
            if StartsWith(token, MODEL_PREFIX) then ScanBack(before + sep, Some(token[|MODEL_PREFIX|..]))
            else if IsState(token) then Some((before + sep, token, model))
            else ScanBack(before + sep, model)
  {
    var s := before + sep;
    RStripBlanks(s + token, b);
    TokenStartAfter(s, token);
    assert (s + token)[|s|..] == token && (s + token)[..|s|] == s;
  }

  /** Reading backwards over the fields reaches the state. */
  lemma {:induction false} ScanFields(base: string, sep: string, state: string, fields: seq<Field>, b: string,
                                      model: Option<string>)
    requires AllBlank(sep) && sep != [] && IsState(state) && AllBlank(b)
    requires forall i :: 0 <= i < |fields| ==> FieldOk(fields[i])
    ensures ScanBack(base + sep + state + Fields(fields) + b, model) ==
            Some((base + sep, state, FirstModel(fields, model)))
    decreases |fields|
  {
    hide ScanBack, IsState;
    if fields == [] {
      assert base + sep + state + Fields(fields) + b == base + sep + state + b;
      StateHasNoBlank(state);
      ScanToken(base, sep, state, b, model);
    } else {
      var rest, f := fields[..|fields| - 1], fields[|fields| - 1];
      var before := base + sep + state + Fields(rest);
      assert base + sep + state + Fields(fields) + b == before + f.sep + f.token + b;
      ScanToken(before, f.sep, f.token, b, model);
      StateWords(f.token);
      var model' := if StartsWith(f.token, MODEL_PREFIX) then Some(f.token[|MODEL_PREFIX|..]) else model;
      ScanFields(base, sep, state, rest, f.sep, model');
    }
  }

  lemma StateHasNoBlank(s: string)
    requires IsState(s)
    ensures NoBlank(s) && s != [] && !StartsWith(s, MODEL_PREFIX)
  {
    assert s[0] != 'm';
  }

  /** Main theorem on a line: whatever the serial contains, the parser returns the
      serial, the state and the first model. */
  lemma LineRoundTrip(r: Row)
    requires RowOk(r)
    ensures ParseLine(Print(r)) == Some(Device(r.serial, r.state, FirstModel(r.fields, None)))
  {
    hide ScanBack, RStrip, IsState;
    StateWords(r.state);
    ScanFields(r.serial, r.sep, r.state, r.fields, r.trailing, None);
    RStripBlanks(r.serial, r.sep);
  }

  // ----- Nothing else is a device -----

  lemma {:induction false} Stripped(s: string)
    ensures AllBlank(s[|RStrip(s)|..])
    ensures RStrip(s) != [] ==> !Blank(RStrip(s)[|RStrip(s)| - 1])
    ensures s != [] && Blank(s[|s| - 1]) ==> |RStrip(s)| < |s|
  {
    if s != [] && Blank(s[|s| - 1]) {
      var rest := s[..|s| - 1];
      Stripped(rest);
      var n := |RStrip(rest)|;
      assert RStrip(s) == RStrip(rest);
      forall i | 0 <= i < |s[n..]| ensures Blank(s[n..][i]) {
        if i < |rest| - n {
          assert s[n..][i] == rest[n..][i];
        }
      }
    }
  }

  lemma {:induction false} TokenHasNoBlank(s: string)
    ensures NoBlank(s[TokenStart(s)..])
  {
    if s != [] && !Blank(s[|s| - 1]) {
      var rest := s[..|s| - 1];
      TokenHasNoBlank(rest);
      var n := TokenStart(s);
      forall i | 0 <= i < |s[n..]| ensures !Blank(s[n..][i]) {
        if i < |rest| - n {
          assert s[n..][i] == rest[n..][i];
        }
      }
    }
  }

  ghost predicate IsModel(token: string)
    ensures IsModel(token) ==> |token| >= 6
  {
    "model:" <= token
  }

  ghost predicate StateWord(s: string) {
    s in STATES
  }

  /** The parts of a string that one backward step reads. */
  lemma StepParts(s: string) returns (before: string, token: string, b: string)
    ensures s == before + token + b && b == s[|RStrip(s)|..]
    ensures NoBlank(token) && AllBlank(b) && (before != [] ==> Blank(before[|before| - 1]))
    ensures token != [] ==> |before| < |s|
    ensures forall model :: ScanBack(s, model) ==
              if token == [] then None
              else if IsModel(token) then ScanBack(before, Some(token[6..]))
              else if StateWord(token) then Some((before, token, model))
              else ScanBack(before, model)
  {
    var t := RStrip(s);
    var start := TokenStart(t);
    before, token, b := t[..start], t[start..], s[|t|..];
    Stripped(s);
    TokenHasNoBlank(t);
    BlankBeforeToken(t);
    StateWords(token);
    assert s == t + b && t == before + token;
    assert token == [] <==> start == |t|;
  }

  /** What the backward scan finds is on the line: a state, preceded by what is left
      and followed by words that are not states. */
  lemma {:induction false} ScanSound(s: string, model: Option<string>) returns (fields: seq<Field>)
    requires ScanBack(s, model).Some?
    ensures var (before, state, m) := ScanBack(s, model).value;
            && s == before + state + Fields(fields) + s[|RStrip(s)|..]
            && state in STATES && m == FirstModel(fields, model)
            && (before != [] ==> Blank(before[|before| - 1]))
            && (forall i :: 0 <= i < |fields| ==> FieldOk(fields[i]))
    decreases |s|
  {
    hide ScanBack, RStrip, IsState, TokenStart, IsModel, StateWord, FieldOk, FirstModel, Fields;
    var before, token, b := StepParts(s);
    if !IsModel(token) && StateWord(token) {
      fields := [];
      NoFields(token, model);
      assert s == before + token + [] + b;
    } else {
      var model' := if IsModel(token) then Some(token[6..]) else model;
      assert ScanBack(s, model) == ScanBack(before, model');
      NotEmpty(before, model');
      var rest := ScanSound(before, model');
      Stripped(before);
      var f := Field(before[|RStrip(before)|..], token);
      NextField(rest, f, model);
      fields := rest + [f];
      JoinField(s, before, token, b, ScanBack(before, model').value.0, ScanBack(before, model').value.1, rest, f);
    }
  }

  lemma NoFields(token: string, model: Option<string>)
    requires StateWord(token)
    ensures Fields([]) == [] && FirstModel([], model) == model && token in STATES
  {
  }

  lemma NextField(rest: seq<Field>, f: Field, model: Option<string>)
    requires f.sep != [] && AllBlank(f.sep) && f.token != [] && NoBlank(f.token)
    requires IsModel(f.token) || !StateWord(f.token)
    ensures FieldOk(f)
    ensures Fields(rest + [f]) == Fields(rest) + f.sep + f.token
    ensures FirstModel(rest + [f], model) == FirstModel(rest, if IsModel(f.token) then Some(f.token[6..]) else model)
  {
    if IsModel(f.token) {
      NoStateIsModel(f.token);
    }
    SnocField(rest, f, model);
  }

  lemma NoStateIsModel(token: string)
    requires "model:" <= token
    ensures token !in STATES
  {
    if token in STATES {
      StateWords(token);
      StateHasNoBlank(token);
    }
  }

  lemma JoinField(s: string, before: string, token: string, b: string, p: string, state: string, rest: seq<Field>,
                  f: Field)
    requires s == before + token + b && before == p + state + Fields(rest) + f.sep && f.token == token
    requires Fields(rest + [f]) == Fields(rest) + f.sep + f.token
    ensures s == p + state + Fields(rest + [f]) + b
  {
    hide Fields;
    var x := p + state;
    assert x + (Fields(rest) + f.sep + token) == x + Fields(rest) + f.sep + token;
  }

  lemma NotEmpty(s: string, model: Option<string>)
    requires ScanBack(s, model).Some?
    ensures s != []
  {
  }

  lemma SnocField(fields: seq<Field>, f: Field, model: Option<string>)
    ensures Fields(fields + [f]) == Fields(fields) + f.sep + f.token
    ensures FirstModel(fields + [f], model) ==
            FirstModel(fields, if "model:" <= f.token then Some(f.token[6..]) else model)
  {
    assert (fields + [f])[..|fields|] == fields;
  }

  /** Main theorem on a line, both ways: the parser finds a device exactly when the
      line is a printed row of that device. */
  lemma LineExactly(line: string, d: Device)
    ensures ParseLine(line) == Some(d) <==>
            exists r :: RowOk(r) && Print(r) == line && d == Device(r.serial, r.state, FirstModel(r.fields, None))
  {
    if ParseLine(line) == Some(d) {
      var r := RowOf(line, d);
      assert RowOk(r) && Print(r) == line;
    }
    forall r | RowOk(r) && Print(r) == line && d == Device(r.serial, r.state, FirstModel(r.fields, None))
      ensures ParseLine(line) == Some(d)
    {
      LineRoundTrip(r);
    }
  }

  lemma RowOf(line: string, d: Device) returns (r: Row)
    requires ParseLine(line) == Some(d)
    ensures RowOk(r) && Print(r) == line && d == Device(r.serial, r.state, FirstModel(r.fields, None))
  {
    hide ParseLine, ScanBack, IsState, RStrip, Fields, FirstModel;
    ParsedParts(line, d);
    var fields := ScanSound(line, None);
    var (before, state, model) := ScanBack(line, None).value;
    Stripped(before);
    Stripped(line);
    r := Row(d.serial, before[|d.serial|..], state, fields, line[|RStrip(line)|..]);
    assert before == d.serial + r.sep;
    assert Print(r) == line;
  }

  lemma ParsedParts(line: string, d: Device)
    requires ParseLine(line) == Some(d)
    ensures !("*" <= line) && !("adb server" <= line) && ScanBack(line, None).Some?
    ensures var (before, state, model) := ScanBack(line, None).value;
            before != [] && d == Device(RStrip(before), state, model) && d.serial != []
  {
    hide ScanBack, IsState;
  }

  // ----- The round trip of the whole text -----

  ghost function Unlines(lines: seq<string>): string {
    if lines == [] then [] else lines[0] + ['\n'] + Unlines(lines[1..])
  }

  ghost predicate OneLine(s: string) {
    '\n' !in s
  }

  /** The devices found on the lines after the header. */
  ghost function Collect(lines: seq<string>): seq<Device> {
    if lines == [] then []
    else
      var d := ParseLine(StripCr(lines[0]));
      (if d.None? then [] else [d.value]) + Collect(lines[1..])
  }

  lemma {:induction false} FirstLine(line: string, rest: string)
    requires OneLine(line)
    ensures LineLength(line + ['\n'] + rest) == |line|
    ensures NextLines(line + ['\n'] + rest) == rest
  {
    var text := line + ['\n'] + rest;
    if line != [] {
      assert text[1..] == line[1..] + ['\n'] + rest;
      assert OneLine(line[1..]);
      FirstLine(line[1..], rest);
    }
    assert text[|line| + 1..] == rest;
  }

  lemma {:induction false} LastLine(line: string)
    requires OneLine(line)
    ensures LineLength(line) == |line|
  {
    if line != [] {
      assert OneLine(line[1..]);
      LastLine(line[1..]);
    }
  }

  /** One line more, after the header. */
  lemma TextStep(line: string, text: string)
    requires text != [] && text[..LineLength(text)] == line
    ensures var (ok, devices) := ParseText(NextLines(text), true);
            ParseText(text, true) == (ok, Collect([line]) + devices)
  {
    hide ParseLine, StripCr;
    assert [line][1..] == [] && Collect([]) == [];
    var d := ParseLine(StripCr(line));
    var mine := if d.None? then [] else [d.value];
    assert Collect([line]) == mine + [] == mine;
    assert [] + ParseText(NextLines(text), true).1 == ParseText(NextLines(text), true).1;
  }

  lemma OneLineText(last: string)
    requires OneLine(last)
    ensures ParseText(last, true) == (true, Collect(if last == [] then [] else [last]))
  {
    hide ParseLine, StripCr;
    if last != [] {
      LastLine(last);
      TextStep(last, last);
      assert NextLines(last) == [] && ParseText([], true) == (true, []);
      assert Collect([last]) + [] == Collect([last]);
    }
  }

  /** After the header, the text is read line by line; the last line may miss its
      end. */
  lemma {:induction false} TextAfterHeader(lines: seq<string>, last: string)
    requires forall i :: 0 <= i < |lines| ==> OneLine(lines[i])
    requires OneLine(last)
    ensures ParseText(Unlines(lines) + last, true) == (true, Collect(lines + if last == [] then [] else [last]))
    decreases |lines|
  {
    hide ParseText, LineLength, Collect, NextLines;
    var more := if last == [] then [] else [last];
    if lines == [] {
      assert Unlines(lines) + last == last && lines + more == more;
      OneLineText(last);
    } else {
      var rest := Unlines(lines[1..]) + last;
      var text := lines[0] + ['\n'] + rest;
      assert Unlines(lines) + last == text;
      FirstLine(lines[0], rest);
      assert text[..|lines[0]|] == lines[0];
      TextStep(lines[0], text);
      TextAfterHeader(lines[1..], last);
      assert lines + more == [lines[0]] + (lines[1..] + more);
      CollectFirst(lines[0], lines[1..] + more);
    }
  }

  lemma CollectFirst(line: string, rest: seq<string>)
    ensures Collect([line] + rest) == Collect([line]) + Collect(rest)
  {
    assert ([line] + rest)[1..] == rest && [line][1..] == [];
  }

  ghost predicate IsHeaderLine(line: string) {
    "List of devices attached" <= line
  }

  lemma IsHeader(line: string)
    ensures StartsWith(line, HEADER) <==> IsHeaderLine(line)
  {
  }

  /** Lines before the header are skipped. */
  lemma {:induction false} TextBeforeHeader(garbage: seq<string>, header: string, rest: string)
    requires forall i :: 0 <= i < |garbage| ==> OneLine(garbage[i]) && !IsHeaderLine(garbage[i])
    requires OneLine(header) && IsHeaderLine(header)
    ensures ParseText(Unlines(garbage) + header + ['\n'] + rest, false) == ParseText(rest, true)
    decreases |garbage|
  {
    hide ParseLine, StripCr, StartsWith, LineLength, NextLines, IsHeaderLine;
    IsHeader(header);
    if garbage != [] {
      IsHeader(garbage[0]);
    }
    var line := if garbage == [] then header else garbage[0];
    var after := if garbage == [] then rest else Unlines(garbage[1..]) + header + ['\n'] + rest;
    assert Unlines(garbage) + header + ['\n'] + rest == line + ['\n'] + after;
    FirstLine(line, after);
    assert (line + ['\n'] + after)[..|line|] == line;
    if garbage != [] {
      TextBeforeHeader(garbage[1..], header, rest);
    }
  }

  /** A printed row with its optional carriage returns. */
  datatype Listed = Listed(row: Row, cr: string)

  ghost predicate ListedOk(e: Listed) {
    var line := Print(e.row);
    && RowOk(e.row)
    && line != [] && line[|line| - 1] != '\r'
    && (forall i :: 0 <= i < |e.cr| ==> e.cr[i] == '\r')
    && OneLine(line + e.cr)
  }

  ghost function LinesOf(es: seq<Listed>): (r: seq<string>)
    ensures |r| == |es|
    ensures forall i :: 0 <= i < |es| ==> r[i] == Print(es[i].row) + es[i].cr
  {
    seq(|es|, i requires 0 <= i < |es| => Print(es[i].row) + es[i].cr)
  }

  ghost function DevicesOf(es: seq<Listed>): (r: seq<Device>)
    ensures |r| == |es|
    ensures forall i :: 0 <= i < |es| ==>
              r[i] == Device(es[i].row.serial, es[i].row.state, FirstModel(es[i].row.fields, None))
  {
    seq(|es|, i requires 0 <= i < |es| =>
          Device(es[i].row.serial, es[i].row.state, FirstModel(es[i].row.fields, None)))
  }

  lemma {:induction false} StripCrEnd(s: string, cr: string)
    requires s != [] && s[|s| - 1] != '\r' && forall i :: 0 <= i < |cr| ==> cr[i] == '\r'
    ensures StripCr(s + cr) == s
    decreases |cr|
  {
    if cr == [] {
      assert s + cr == s;
    } else {
      assert (s + cr)[..|s + cr| - 1] == s + cr[..|cr| - 1];
      StripCrEnd(s, cr[..|cr| - 1]);
    }
  }

  lemma {:induction false} CollectRows(es: seq<Listed>)
    requires forall i :: 0 <= i < |es| ==> ListedOk(es[i])
    ensures Collect(LinesOf(es)) == DevicesOf(es)
  {
    hide Print, ParseLine, RowOk, FirstModel, StripCr;
    if es != [] {
      StripCrEnd(Print(es[0].row), es[0].cr);
      LineRoundTrip(es[0].row);
      CollectRows(es[1..]);
      assert LinesOf(es)[1..] == LinesOf(es[1..]);
      assert DevicesOf(es) == [DevicesOf(es)[0]] + DevicesOf(es[1..]);
    }
  }

  /** Main theorem: for every list of devices, printed after any other output and
      with any line ends, the parser returns the same serials, states and models
      in the same order. */
  lemma TextRoundTrip(garbage: seq<string>, header: string, es: seq<Listed>)
    requires forall i :: 0 <= i < |garbage| ==> OneLine(garbage[i]) && !IsHeaderLine(garbage[i])
    requires OneLine(header) && IsHeaderLine(header)
    requires forall i :: 0 <= i < |es| ==> ListedOk(es[i])
    ensures ParseText(Unlines(garbage) + header + ['\n'] + Unlines(LinesOf(es)), false) == (true, DevicesOf(es))
  {
    var text := Unlines(LinesOf(es));
    TextBeforeHeader(garbage, header, text);
    TextAfterHeader(LinesOf(es), []);
    assert text + [] == text;
    assert LinesOf(es) + [] == LinesOf(es);
    CollectRows(es);
  }

  // ----- The parser in place -----

  /** The terminated string found in memory at `at`. */
  ghost predicate Holds(str: array<char>, at: nat, value: string)
    reads str
  {
    && at + |value| < str.Length && str[at + |value|] == NUL
    && forall i :: 0 <= i < |value| ==> str[at + i] == value[i] != NUL
  }

  /** The terminator is where the string ends. */
  lemma NulAtEnd(str: array<char>, at: nat, value: string, n: nat)
    requires Holds(str, at, value) && n <= |value|
    ensures str[at + n] == NUL <==> n == |value|
    ensures n < |value| ==> str[at + n] == value[n]
  {
    if n < |value| {
      assert str[at + n] == value[n];
    }
  }

  method CString(str: array<char>, at: nat, ghost value: string) returns (s: string)
    requires Holds(str, at, value)
    ensures s == value
  {
    s := [];
    NulAtEnd(str, at, value, 0);
    while str[at + |s|] != NUL
      invariant s <= value
      invariant str[at + |s|] == NUL <==> |s| == |value|
      decreases |value| - |s|
    {
      NulAtEnd(str, at, value, |s|);
      s := s + [str[at + |s|]];
      NulAtEnd(str, at, value, |s|);
    }
  }

  /** Writes a terminator in front of a string that must stay. */
  method PutNul(str: array<char>, k: nat, ghost at: int, ghost kept: Option<string>)
    requires k < str.Length
    requires kept.Some? ==> k < at && Holds(str, at, kept.value)
    modifies str
    ensures str[k] == NUL && forall i :: 0 <= i < str.Length && i != k ==> str[i] == old(str[i])
    ensures kept.Some? ==> Holds(str, at, kept.value)
  {
    str[k] := NUL;
  }

  method RStripLen(str: array<char>, off: nat, len: nat) returns (i: nat)
    requires off + len <= str.Length
    ensures i <= len && str[off..off + i] == RStrip(str[off..off + len])
  {
    i := len;
    while i > 0 && Blank(str[off + i - 1])
      invariant 0 <= i <= len
      invariant RStrip(str[off..off + i]) == RStrip(str[off..off + len])
    {
      assert str[off..off + i][..i - 1] == str[off..off + i - 1];
      i := i - 1;
    }
  }

  method LocateLastToken(str: array<char>, off: nat, len: nat) returns (start: nat, end: nat)
    requires off + len <= str.Length
    ensures start <= end <= len
    ensures str[off..off + end] == RStrip(str[off..off + len])
    ensures start == TokenStart(str[off..off + end])
  {
    end := RStripLen(str, off, len);
    start := end;
    while start > 0 && !Blank(str[off + start - 1])
      invariant 0 <= start <= end
      invariant TokenStart(str[off..off + start]) == TokenStart(str[off..off + end])
    {
      assert str[off..off + start][..start - 1] == str[off..off + start - 1];
      start := start - 1;
    }
  }

  lemma {:induction false} BlankBeforeToken(s: string)
    ensures TokenStart(s) > 0 ==> Blank(s[TokenStart(s) - 1])
  {
    if s != [] && !Blank(s[|s| - 1]) {
      BlankBeforeToken(s[..|s| - 1]);
    }
  }

  /** One backward step, on the part of the line still to read. */
  lemma ScanStep(line: string, cur: nat, end: nat, start: nat, model: Option<string>)
    requires start <= end <= cur <= |line|
    requires line[..end] == RStrip(line[..cur]) && start == TokenStart(line[..end])
    ensures var token := line[start..end];
            ScanBack(line[..cur], model) ==
            if start == end then None
            else if StartsWith(token, MODEL_PREFIX) then ScanBack(line[..start], Some(token[|MODEL_PREFIX|..]))
            else if IsState(token) then Some((line[..start], token, model))
            else ScanBack(line[..start], model)
    ensures start > 0 ==> Blank(line[start - 1])
  {
    hide IsState, StartsWith;
    BlankBeforeToken(line[..end]);
    assert line[..end][start..] == line[start..end];
    assert line[..end][..start] == line[..start];
  }

  /** What the backward scan leaves behind: where the state starts, and where the
      model starts if there is one. */
  datatype Scanned = Scanned(start: nat, modelAt: int)

  ghost predicate ScannedAs(str: array<char>, off: nat, r: Option<Scanned>, line: string,
                            spec: Option<(string, string, Option<string>)>)
    reads str
  {
    && r.None? == spec.None?
    && (r.Some? ==>
          var (before, state, model) := spec.value;
          var start := r.value.start;
          && start <= |line| && before == line[..start] && (start > 0 ==> Blank(line[start - 1]))
          && off + start <= str.Length && (forall i :: 0 <= i < start ==> str[off + i] == line[i])
          && Holds(str, off + start, state)
          && (r.value.modelAt >= 0 <==> model.Some?)
          && (model.Some? ==> start < r.value.modelAt && Holds(str, off + r.value.modelAt, model.value)))
  }

  lemma HoldsChars(str: array<char>, at: nat, value: string)
    requires Holds(str, at, value)
    ensures at + |value| < str.Length && str[at + |value|] == NUL
    ensures forall i :: 0 <= i < |value| ==> str[at + i] == value[i] != NUL
  {
  }

  lemma HoldsSuffix(str: array<char>, at: nat, value: string, k: nat)
    requires Holds(str, at, value) && k <= |value|
    ensures Holds(str, at + k, value[k..])
  {
    forall i | 0 <= i < |value[k..]| ensures str[at + k + i] == value[k..][i] != NUL {
      assert value[k..][i] == value[k + i];
    }
  }

  /** Locates the last token of the unread part and cuts it off, leaving the
      string kept further right alone. */
  method CutToken(str: array<char>, off: nat, cur: nat, ghost line: string, ghost at: int, ghost kept: Option<string>)
      returns (start: nat, end: nat)
    requires cur <= |line| && off + |line| < str.Length && str[off + |line|] == NUL
    requires forall i :: 0 <= i < cur ==> str[off + i] == line[i] != NUL
    requires kept.Some? ==> off + cur < at && Holds(str, at, kept.value)
    modifies str
    ensures start <= end <= cur && line[..end] == RStrip(line[..cur]) && start == TokenStart(line[..end])
    ensures start < end ==> Holds(str, off + start, line[start..end])
    ensures kept.Some? ==> Holds(str, at, kept.value)
    ensures forall i :: 0 <= i < start ==> str[off + i] == line[i]
    ensures forall i :: 0 <= i < str.Length && !(off <= i < off + |line|) ==> str[i] == old(str[i])
  {
    hide RStrip, TokenStart;
    start, end := LocateLastToken(str, off, cur);
    assert str[off..off + cur] == line[..cur];
    assert str[off..off + end] == line[..end];
    if start < end {
      PutNul(str, off + end, at, kept);
    }
  }

  /** The backward scan, cutting tokens in place. */
  method ScanInPlace(str: array<char>, off: nat, ghost line: string) returns (r: Option<Scanned>)
    requires Holds(str, off, line)
    modifies str
    ensures forall i :: 0 <= i < str.Length && !(off <= i < off + |line|) ==> str[i] == old(str[i])
    ensures ScannedAs(str, off, r, line, ScanBack(line, None))
  {
    hide ScanBack, RStrip, TokenStart, IsState, StartsWith, Holds;
    HoldsChars(str, off, line);
    var whole := CString(str, off, line);
    var cur := |whole|;
    var modelAt := -1;
    ghost var model: Option<string> := None;
    assert line[..cur] == line;
    while true
      invariant 0 <= cur <= |line|
      invariant forall i :: 0 <= i < str.Length && !(off <= i < off + |line|) ==> str[i] == old(str[i])
      invariant forall i :: 0 <= i < cur ==> str[off + i] == line[i] != NUL
      invariant ScanBack(line[..cur], model) == ScanBack(line, None)
      invariant modelAt >= 0 <==> model.Some?
      invariant model.Some? ==> cur < modelAt && Holds(str, off + modelAt, model.value)
      decreases cur
    {
      var start, end := CutToken(str, off, cur, line, off + modelAt, model);
      ScanStep(line, cur, end, start, model);
      if start == end {
        return None;
      }
      var token := CString(str, off + start, line[start..end]);
      if StartsWith(token, MODEL_PREFIX) {
        modelAt := start + |MODEL_PREFIX|;
        model := Some(token[|MODEL_PREFIX|..]);
        HoldsSuffix(str, off + start, token, |MODEL_PREFIX|);
      } else if IsState(token) {
        return Some(Scanned(start, modelAt));
      }
      cur := start;
    }
  }

  lemma RStripShorter(s: string)
    requires s != [] && Blank(s[|s| - 1])
    ensures |RStrip(s)| < |s|
  {
  }

  /** One line, in place; only the line and its terminator change. */
  method ParseDevice(str: array<char>, off: nat, ghost line: string) returns (d: Option<Device>)
    requires Holds(str, off, line)
    modifies str
    ensures d == ParseLine(line)
    ensures forall i :: 0 <= i < str.Length && !(off <= i < off + |line|) ==> str[i] == old(str[i])
  {
    hide ScanBack, RStrip, IsState, StartsWith;
    StarPrefix(line);
    assert line != [] ==> str[off + 0] == line[0];
    if str[off] == '*' {
      return None;
    }
    var text := CString(str, off, line);
    if StartsWith(text, SERVER_PREFIX) {
      return None;
    }
    var r := ScanInPlace(str, off, line);
    if r.None? {
      return None;
    }
    d := CopyDevice(str, off, r.value, line);
  }

  lemma StarPrefix(line: string)
    ensures StartsWith(line, "*") <==> line != [] && line[0] == '*'
  {
  }

  /** Cuts the serial and copies the strings of a scanned line. */
  method CopyDevice(str: array<char>, off: nat, r: Scanned, ghost line: string) returns (d: Option<Device>)
    requires ScannedAs(str, off, Some(r), line, ScanBack(line, None)) && NUL !in line
    modifies str
    ensures var (before, state, model) := ScanBack(line, None).value;
            d == if RStrip(before) == [] then None else Some(Device(RStrip(before), state, model))
    ensures forall i :: 0 <= i < str.Length && !(off <= i < off + |line|) ==> str[i] == old(str[i])
  {
    hide ScanBack, RStrip;
    ghost var (before, state, model) := ScanBack(line, None).value;
    var serialLen := RStripLen(str, off, r.start);
    assert str[off..off + r.start] == before;
    if serialLen == 0 {
      return None;
    }
    RStripShorter(before);
    ghost var serial := RStrip(before);
    PutNul(str, off + serialLen, off + r.modelAt, model);
    assert Holds(str, off + r.start, state);
    assert Holds(str, off, serial) by {
      forall i | 0 <= i < |serial| ensures str[off + i] == serial[i] != NUL {
        assert serial[i] == line[i];
      }
    }
    var serialCopy := CString(str, off, serial);
    var stateCopy := CString(str, off + r.start, state);
    var modelCopy := None;
    if r.modelAt >= 0 {
      var m := CString(str, off + r.modelAt, model.value);
      modelCopy := Some(m);
    }
    return Some(Device(serialCopy, stateCopy, modelCopy));
  }

  /** Number of characters before the next line end or terminator. */
  method LineSpan(str: array<char>, off: nat, ghost text: string) returns (n: nat)
    requires Holds(str, off, text)
    ensures n == LineLength(text)
  {
    n := 0;
    NulAtEnd(str, off, text, 0);
    while str[off + n] != '\n' && str[off + n] != NUL
      invariant n <= LineLength(text)
      invariant str[off + n] == NUL <==> n == |text|
      invariant n < |text| ==> str[off + n] == text[n]
      decreases |text| - n
    {
      n := n + 1;
      NulAtEnd(str, off, text, n);
    }
  }

  /** Cuts trailing carriage returns off a line. */
  method RemoveTrailingCr(str: array<char>, off: nat, len: nat, ghost line: string) returns (n: nat)
    requires |line| == len && off + len < str.Length
    requires forall i :: 0 <= i < len ==> str[off + i] == line[i]
    modifies str
    ensures n == |StripCr(line)|
    ensures forall i :: 0 <= i < str.Length && !(off + n <= i < off + len) ==> str[i] == old(str[i])
  {
    n := len;
    assert line[..n] == line;
    while n > 0
      invariant 0 <= n <= len && StripCr(line[..n]) == StripCr(line)
      invariant forall i :: 0 <= i < str.Length && !(off + n <= i < off + len) ==> str[i] == old(str[i])
    {
      assert line[..n][..n - 1] == line[..n - 1];
      if str[off + n - 1] != '\r' {
        break;
      }
      n := n - 1;
      str[off + n] := NUL;
    }
  }

  /** Where the next line starts. */
  method SkipLine(str: array<char>, off: nat, len: nat, ghost text: string) returns (idx: nat)
    requires Holds(str, off, text) && len == LineLength(text)
    ensures off + len <= idx && Holds(str, idx, NextLines(text))
    ensures forall i :: 0 <= i < len ==> str[off + i] == text[i] != NUL
    ensures off + len < str.Length
    ensures (str[off + len] == '\n' && idx == off + len + 1) || (str[off + len] == NUL && idx == off + len)
  {
    idx := off + len;
    NulAtEnd(str, off, text, len);
    if str[idx] != NUL {
      idx := idx + 1;
      HoldsSuffix(str, off, text, len + 1);
    } else {
      HoldsSuffix(str, off, text, len);
    }
  }

  /** Reads one line of the list in place; the text after it stays. */
  method ReadLine(str: array<char>, off: nat, len: nat, ghost line: string, ghost idx: nat, ghost next: string)
      returns (d: Option<Device>)
    requires |line| == len && off + len <= idx && Holds(str, idx, next)
    requires forall i :: 0 <= i < len ==> str[off + i] == line[i] != NUL
    requires (str[off + len] == '\n' && idx == off + len + 1) || (str[off + len] == NUL && idx == off + len)
    modifies str
    ensures d == ParseLine(StripCr(line))
    ensures Holds(str, idx, next)
  {
    hide ParseLine, StripCr;
    var lineLen := RemoveTrailingCr(str, off, len, line);
    ghost var stripped := StripCr(line);
    str[off + lineLen] := NUL;
    assert Holds(str, off, stripped) by {
      forall i | 0 <= i < |stripped| ensures str[off + i] == stripped[i] != NUL {
        assert stripped[i] == line[i];
      }
    }
    assert Holds(str, idx, next);
    d := ParseDevice(str, off, stripped);
  }

  /** What is left to read adds to the devices found so far. */
  ghost predicate Progress(rest: string, found: bool, devices: seq<Device>, all: (bool, seq<Device>)) {
    var (ok, more) := ParseText(rest, found);
    (ok, devices + more) == all
  }

  lemma ProgressStep(rest: string, found: bool, devices: seq<Device>, all: (bool, seq<Device>))
    requires rest != [] && Progress(rest, found, devices, all)
    ensures var line := rest[..LineLength(rest)];
            var d := ParseLine(StripCr(line));
            if !found then Progress(NextLines(rest), StartsWith(line, HEADER), devices, all)
            else Progress(NextLines(rest), true, if d.None? then devices else devices + [d.value], all)
  {
    hide ParseLine, StripCr, StartsWith, LineLength;
    var d := ParseLine(StripCr(rest[..LineLength(rest)]));
    if found && d.Some? {
      var more := ParseText(NextLines(rest), true).1;
      assert devices + ([d.value] + more) == (devices + [d.value]) + more;
    }
  }

  /** The whole output, in place. */
  method ParseDevices(str: array<char>, ghost text: string) returns (found: bool, devices: seq<Device>)
    requires Holds(str, 0, text)
    modifies str
    ensures (found, devices) == ParseText(text, false)
  {
    hide ParseLine, StripCr, LineLength, StartsWith, Holds, NextLines, Progress, ParseText;
    var idx := 0;
    found := false;
    devices := [];
    ghost var rest := text;
    ghost var all := ParseText(text, false);
    ProgressEnds(text, false, devices, all);
    HoldsChars(str, 0, text);
    NulAtEnd(str, 0, text, 0);
    while str[idx] != NUL
      invariant idx < str.Length && Holds(str, idx, rest)
      invariant Progress(rest, found, devices, all)
      invariant str[idx] == NUL <==> rest == []
      decreases |rest|
    {
      var off := idx;
      ProgressStep(rest, found, devices, all);
      var len := LineSpan(str, off, rest);
      ghost var line := rest[..len];
      ghost var next := NextLines(rest);
      idx := SkipLine(str, off, len, rest);
      if !found {
        found := StartsWith(str[off..off + len], HEADER);
        assert str[off..off + len] == line;
      } else {
        var d := ReadLine(str, off, len, line, idx, next);
        devices := if d.None? then devices else devices + [d.value];
      }
      rest := next;
      HoldsChars(str, idx, rest);
      NulAtEnd(str, idx, rest, 0);
    }
    ProgressEnds(rest, found, devices, all);
  }

  lemma ProgressEnds(rest: string, found: bool, devices: seq<Device>, all: (bool, seq<Device>))
    ensures devices == [] && all == ParseText(rest, found) ==> Progress(rest, found, devices, all)
    ensures rest == [] && Progress(rest, found, devices, all) ==> (found, devices) == all
  {
    assert [] + ParseText(rest, found).1 == ParseText(rest, found).1;
    assert devices + [] == devices;
  }
}
