/**
 * The command line of src/application/argument_handler.*. Tokens are read
 * left to right from position 0; "-b", "-r" and "-bp" each take the next
 * token as their value and any other token ends the program. A "-bp"
 * value is a comma-separated list of hexadecimal addresses.
 *
 * The ways the C++ stops early (exit(0) after "Illegal argument", an
 * exception out of std::stoul, reading argv[argc] when an option is last)
 * are all reported as an Outcome instead.
 */
module Arguments {
  import opened Bytes

  const CMD_TYPE_BIOS := "-b"
  const CMD_TYPE_ROM := "-r"
  const CMD_TYPE_BREAKPOINTS := "-bp"

  /** How the construction ended. */
  datatype Outcome =
    | Parsed
      /** A token that is not an option: "Illegal argument", then exit(0). */
    | IllegalArgument(token: string)
      /** An option in last position: its value would be read from argv[argc]. */
    | MissingValue(option: string)
      /** A breakpoint std::stoul cannot convert: std::invalid_argument. */
    | InvalidBreakpoint(field: string)
      /** A breakpoint past unsigned long: std::out_of_range. */
    | BreakpointOutOfRange(field: string)

  // ---------------------------------------------------------------------
  // std::getline(iss, breakpoint, ',')
  // ---------------------------------------------------------------------

  /** The index of the first ',' in s, or |s| when there is none. */
  function FieldEnd(s: string): (k: nat)
    ensures k <= |s|
    ensures k < |s| ==> s[k] == ','
    ensures forall i :: 0 <= i < k ==> s[i] != ','
  {
    if s == [] || s[0] == ',' then 0 else 1 + FieldEnd(s[1..])
  }

  /**
   * The fields successive getline calls extract: the text between commas,
   * where a call that finds the input exhausted fails, so a trailing comma
   * adds no empty field and an empty string has none.
   */
  function Fields(s: string): seq<string>
    decreases |s|
  {
    if s == [] then []
    else
      var k := FieldEnd(s);
      if k == |s| then [s] else [s[..k]] + Fields(s[k + 1..])
  }

  /** One getline call: the first field, and the input after its comma. */
  lemma FieldsStep(s: string)
    requires s != []
    ensures var k := FieldEnd(s);
      Fields(s) == [s[..k]] + Fields(if k == |s| then [] else s[k + 1..])
  {
    assert s[..|s|] == s;
  }

  /** The fields joined back with commas. */
  function Join(fields: seq<string>): string {
    if fields == [] then []
    else if |fields| == 1 then fields[0]
    else fields[0] + [','] + Join(fields[1..])
  }

  /** No field holds a comma. */
  lemma {:induction false} FieldsHaveNoComma(s: string)
    ensures forall f, i :: f in Fields(s) && 0 <= i < |f| ==> f[i] != ','
    decreases |s|
  {
    if s != [] {
      var k := FieldEnd(s);
      if k < |s| {
        FieldsHaveNoComma(s[k + 1..]);
      }
    }
  }

  /** Splitting and joining gives the text back, unless it ends in a comma that getline drops. */
  lemma {:induction false} JoinFields(s: string)
    requires s == [] || s[|s| - 1] != ','
    ensures Join(Fields(s)) == s
    decreases |s|
  {
    if s != [] {
      var k := FieldEnd(s);
      if k < |s| {
        var rest := s[k + 1..];
        assert rest != [] && rest[|rest| - 1] == s[|s| - 1];
        JoinFields(rest);
        assert Fields(rest) != [];
        assert s == s[..k] + [','] + rest;
      }
    }
  }

  // ---------------------------------------------------------------------
  // std::stoul(text, nullptr, 16), with glibc's strtoul and 64-bit unsigned long
  // ---------------------------------------------------------------------

  const ULONG_MAX := 0xFFFF_FFFF_FFFF_FFFF

  /** The conversion strtoul makes and stoul reports. */
  datatype Conversion = Converted(value: nat) | NoDigits | OutOfRange

  /** isspace in the C locale: space, tab, newline, vertical tab, form feed, carriage return. */
  predicate IsSpace(c: char) {
    c == ' ' || '\t' <= c <= '\r'
  }

  predicate IsHexDigit(c: char) {
    '0' <= c <= '9' || 'a' <= c <= 'f' || 'A' <= c <= 'F'
  }

  function DigitValue(c: char): (d: nat)
    requires IsHexDigit(c)
    ensures d < 16
  {
    if '0' <= c <= '9' then c as int - '0' as int
    else if 'a' <= c <= 'f' then c as int - 'a' as int + 10
    else c as int - 'A' as int + 10
  }

  /** The number of leading whitespace characters. */
  function Spaces(s: string): (n: nat)
    ensures n <= |s|
    ensures n < |s| ==> !IsSpace(s[n])
  {
    if s != [] && IsSpace(s[0]) then 1 + Spaces(s[1..]) else 0
  }

  /** The longest prefix of hexadecimal digits. */
  function HexPrefix(s: string): (d: string)
    ensures |d| <= |s| && d == s[..|d|]
    ensures forall i :: 0 <= i < |d| ==> IsHexDigit(d[i])
    ensures |d| < |s| ==> !IsHexDigit(s[|d|])
  {
    if s != [] && IsHexDigit(s[0]) then [s[0]] + HexPrefix(s[1..]) else []
  }

  /** The number a string of hexadecimal digits denotes, most significant first. */
  function HexValue(d: string): nat
    requires forall i :: 0 <= i < |d| ==> IsHexDigit(d[i])
  {
    if d == [] then 0 else HexValue(d[..|d| - 1]) * 16 + DigitValue(d[|d| - 1])
  }

  /**
   * strtoul(s, &end, 16) as stoul reads it: skip whitespace, take an
   * optional sign, skip a "0x" or "0X" that a digit follows, then convert
   * the longest run of hexadecimal digits. No digits is no conversion; a
   * value past ULONG_MAX is a range error; a '-' negates modulo 2^64.
   * Whatever follows the digits is ignored.
   */
  function Strtoul16(s: string): Conversion {
    Signed(s[Spaces(s)..])
  }

  /** The sign, then the magnitude. */
  function Signed(t: string): Conversion {
    if t != [] && t[0] == '-' then Negate(Magnitude(t[1..]))
    else if t != [] && t[0] == '+' then Magnitude(t[1..])
    else Magnitude(t)
  }

  /** Unsigned negation modulo 2^64. */
  function Negate(c: Conversion): (r: Conversion)
    ensures r.Converted? <==> c.Converted?
    ensures c.Converted? && c.value <= ULONG_MAX ==> r.value <= ULONG_MAX && (r.value + c.value) % (ULONG_MAX + 1) == 0
  {
    if c.Converted? then Converted((ULONG_MAX + 1 - c.value) % (ULONG_MAX + 1)) else c
  }

  /** The digits after an optional "0x", their value, or why there is none. */
  function Magnitude(t: string): (r: Conversion)
    ensures r.Converted? ==> r.value <= ULONG_MAX
  {
    var digits := HexPrefix(Unprefixed(t));
    if digits == [] then NoDigits
    else if HexValue(digits) > ULONG_MAX then OutOfRange
    else Converted(HexValue(digits))
  }

  /** t after a "0x" or "0X" that a hexadecimal digit follows. */
  function Unprefixed(t: string): string {
    if |t| > 2 && t[0] == '0' && (t[1] == 'x' || t[1] == 'X') && IsHexDigit(t[2]) then t[2..] else t
  }

  /** `static_cast<uint16_t>` of the converted value. */
  function Truncate16(n: nat): word {
    n % 0x1_0000
  }

  /** A hexadecimal digit for d. */
  function Digit(d: nat): (c: char)
    requires d < 16
    ensures IsHexDigit(c) && DigitValue(c) == d
  {
    if d < 10 then ('0' as int + d) as char else ('a' as int + d - 10) as char
  }

  /** n written in hexadecimal with no prefix. */
  function Hex(n: nat): (s: string)
    ensures |s| > 0 && forall i :: 0 <= i < |s| ==> IsHexDigit(s[i])
  {
    if n < 16 then [Digit(n)] else Hex(n / 16) + [Digit(n % 16)]
  }

  lemma {:induction false} HexValueOfHex(n: nat)
    ensures HexValue(Hex(n)) == n
  {
    if n >= 16 {
      HexValueOfHex(n / 16);
      var s := Hex(n);
      assert s[..|s| - 1] == Hex(n / 16);
    }
  }

  lemma {:induction false} HexPrefixOfDigits(s: string, rest: string)
    requires forall i :: 0 <= i < |s| ==> IsHexDigit(s[i])
    requires rest == [] || !IsHexDigit(rest[0])
    ensures HexPrefix(s + rest) == s
  {
    if s != [] {
      assert (s + rest)[1..] == s[1..] + rest;
      HexPrefixOfDigits(s[1..], rest);
    }
  }

  /** A string of digits has no "0x" prefix to skip, since 'x' is not a digit. */
  lemma UnprefixedDigits(h: string)
    requires forall i :: 0 <= i < |h| ==> IsHexDigit(h[i])
    ensures Unprefixed(h) == h
  {
    if |h| > 2 {
      assert IsHexDigit(h[1]);
    }
  }

  /** A digit string that is not a "0x" prefix converts to its value. */
  lemma ConvertDigits(h: string)
    requires |h| > 0 && (forall i :: 0 <= i < |h| ==> IsHexDigit(h[i])) && HexValue(h) <= ULONG_MAX
    ensures Magnitude(h) == Converted(HexValue(h))
  {
    UnprefixedDigits(h);
    HexPrefixOfDigits(h, []);
    assert h + [] == h;
  }

  /** stoul reads back what Hex writes, for every value of unsigned long; a breakpoint keeps its low 16 bits. */
  lemma HexRoundTrip(n: nat)
    requires n <= ULONG_MAX
    ensures Strtoul16(Hex(n)) == Converted(n)
    ensures n < 0x1_0000 ==> Truncate16(n) == n
  {
    var h := Hex(n);
    HexValueOfHex(n);
    ConvertDigits(h);
    assert Spaces(h) == 0 && h[0..] == h;
  }

  /** The same with a "0x" prefix. */
  lemma PrefixedHexRoundTrip(n: nat)
    requires n <= ULONG_MAX
    ensures Strtoul16("0x" + Hex(n)) == Converted(n)
  {
    var h := Hex(n);
    var p := "0x" + h;
    HexValueOfHex(n);
    assert Spaces(p) == 0 && p[0..] == p;
    assert Unprefixed(p) == h by {
      assert p[2..] == h;
    }
    assert HexPrefix(h) == h by {
      HexPrefixOfDigits(h, []);
      assert h + [] == h;
    }
    var digits := HexPrefix(Unprefixed(h));
    assert digits == h;
    assert digits != [] && HexValue(digits) <= ULONG_MAX;
  }

  /** A digit string's value is at least 16^(length - 1) when it does not start with 0. */
  lemma {:induction false} HexValueAtLeast(d: string)
    requires |d| > 0 && forall i :: 0 <= i < |d| ==> IsHexDigit(d[i])
    requires d[0] != '0'
    ensures HexValue(d) >= Pow16(|d| - 1)
  {
    if |d| > 1 {
      HexValueAtLeast(d[..|d| - 1]);
    }
  }

  function Pow16(e: nat): nat {
    if e == 0 then 1 else 16 * Pow16(e - 1)
  }

  /** stoul's error cases: an empty field, one with no digits, more than 16 significant digits. */
  lemma StoulErrors(d: string)
    requires |d| > 16 && (forall i :: 0 <= i < |d| ==> IsHexDigit(d[i])) && d[0] != '0'
    ensures Strtoul16("") == NoDigits
    ensures Strtoul16("g") == NoDigits
    ensures Strtoul16("-") == NoDigits
    ensures Strtoul16(d) == OutOfRange
  {
    assert Spaces("-") == 0 && "-"[0..] == "-" && "-"[1..] == [];
    assert Spaces("g") == 0 && "g"[0..] == "g" && HexPrefix("g") == [];
    assert Spaces(d) == 0 && d[0..] == d;
    assert Unprefixed(d) == d;
    HexPrefixOfDigits(d, []);
    assert d + [] == d;
    HexValueAtLeast(d);
    PowMonotone(16, |d| - 1);
    assert Pow16(4) == 0x1_0000;
    Pow16Add(4, 4);
    Pow16Add(8, 8);
  }

  lemma {:induction false} Pow16Add(a: nat, b: nat)
    ensures Pow16(a + b) == Pow16(a) * Pow16(b)
    decreases b
  {
    if b > 0 {
      Pow16Add(a, b - 1);
    }
  }

  lemma {:induction false} PowMonotone(a: nat, b: nat)
    requires a <= b
    ensures Pow16(a) <= Pow16(b)
    decreases b
  {
    if a < b {
      PowMonotone(a, b - 1);
    }
  }

  /** The magnitude of a run of digits that something other than a digit follows. */
  lemma MagnitudeOfDigits(d: string, rest: string)
    requires |d| > 0 && forall i :: 0 <= i < |d| ==> IsHexDigit(d[i])
    requires rest == [] || !IsHexDigit(rest[0])
    requires Unprefixed(d + rest) == d + rest && HexValue(d) <= ULONG_MAX
    ensures Magnitude(d + rest) == Converted(HexValue(d))
  {
    HexPrefixOfDigits(d, rest);
  }

  /** stoul skips leading blanks and a "0x" that a digit follows; "0x" alone is the digit 0. */
  lemma StoulPrefixes()
    ensures Strtoul16(" ff") == Converted(0xFF)
    ensures Strtoul16("0x") == Converted(0)
  {
    assert Spaces(" ff") == 1 && " ff"[1..] == "ff" + [];
    assert HexValue("ff") == 0xFF by { assert "ff"[..1] == "f"; }
    MagnitudeOfDigits("ff", []);
    assert Spaces("0x") == 0 && "0x"[0..] == "0" + "x";
    MagnitudeOfDigits("0", "x");
  }

  /** stoul stops at the first character that is not a digit, and '-' negates modulo 2^64. */
  lemma StoulTailAndSign()
    ensures Strtoul16("12zz") == Converted(0x12)
    ensures Strtoul16("-1") == Converted(ULONG_MAX)
    ensures Truncate16(ULONG_MAX) == 0xFFFF && Truncate16(0x1_0100) == 0x100
  {
    assert Spaces("12zz") == 0 && "12zz"[0..] == "12" + "zz";
    assert HexValue("12") == 0x12 by { assert "12"[..1] == "1"; }
    MagnitudeOfDigits("12", "zz");
    assert Spaces("-1") == 0 && "-1"[0..] == "-1" && "-1"[1..] == "1" + [];
    MagnitudeOfDigits("1", []);
  }

  // ---------------------------------------------------------------------
  // The commands
  // ---------------------------------------------------------------------

  /** The handler's three members, and how its construction has gone so far. */
  datatype Config = Config(bios: string, rom: string, breakpoints: set<word>, outcome: Outcome)

  const Empty := Config("", "", {}, Parsed)

  /**
   * The breakpoints after inserting each field in turn; the first field
   * that does not convert stops the loop with what was inserted before it.
   */
  function InsertAll(acc: set<word>, fields: seq<string>): (r: (set<word>, Outcome))
    ensures acc <= r.0
    ensures r.1 == Parsed || r.1.InvalidBreakpoint? || r.1.BreakpointOutOfRange?
    decreases |fields|
  {
    if fields == [] then (acc, Parsed)
    else match Strtoul16(fields[0])
      case Converted(n) => InsertAll(acc + {Truncate16(n)}, fields[1..])
      case NoDigits => (acc, InvalidBreakpoint(fields[0]))
      case OutOfRange => (acc, BreakpointOutOfRange(fields[0]))
  }

  /** One turn of the loop. */
  lemma InsertAllCons(acc: set<word>, f: string, fs: seq<string>)
    ensures Strtoul16(f).Converted? ==> InsertAll(acc, [f] + fs) == InsertAll(acc + {Truncate16(Strtoul16(f).value)}, fs)
    ensures Strtoul16(f).NoDigits? ==> InsertAll(acc, [f] + fs) == (acc, InvalidBreakpoint(f))
    ensures Strtoul16(f).OutOfRange? ==> InsertAll(acc, [f] + fs) == (acc, BreakpointOutOfRange(f))
  {
    assert ([f] + fs)[0] == f && ([f] + fs)[1..] == fs;
  }

  /** Every field converts. */
  predicate AllConvert(fields: seq<string>) {
    forall f :: f in fields ==> Strtoul16(f).Converted?
  }

  /** The breakpoints a list of fields names. */
  function Addresses(fields: seq<string>): set<word>
    requires AllConvert(fields)
  {
    set f | f in fields :: Truncate16(Strtoul16(f).value)
  }

  /** The loop completes exactly when every field converts, and then adds exactly their truncated values. */
  lemma {:induction false} InsertAllAdds(acc: set<word>, fields: seq<string>)
    ensures InsertAll(acc, fields).1 == Parsed <==> AllConvert(fields)
    ensures AllConvert(fields) ==> InsertAll(acc, fields).0 == acc + Addresses(fields)
    decreases |fields|
  {
    if fields != [] {
      var f0 := fields[0];
      var tail := fields[1..];
      assert fields == [f0] + tail;
      assert forall f :: f in fields <==> f == f0 || f in tail;
      if Strtoul16(f0).Converted? {
        InsertAllAdds(acc + {Truncate16(Strtoul16(f0).value)}, tail);
        if AllConvert(fields) {
          assert Addresses(fields) == {Truncate16(Strtoul16(f0).value)} + Addresses(tail);
        }
      }
    }
  }

  /** An option with its value, as create_command builds it. */
  datatype Command = BiosCommand(bios: string) | RomCommand(rom: string) | BreakpointCommand(bps: string)

  /** What create_command makes of argv[pos]: a command and the position of its value, or the end. */
  datatype Created = Created(cmd: Command, pos: nat) | Refused(outcome: Outcome)

  function CreateCommand(argv: seq<string>, pos: nat): (c: Created)
    requires pos < |argv|
    ensures c.Created? ==> c.pos == pos + 1 < |argv|
  {
    var tok := argv[pos];
    if tok != CMD_TYPE_BIOS && tok != CMD_TYPE_ROM && tok != CMD_TYPE_BREAKPOINTS then Refused(IllegalArgument(tok))
    else if pos + 1 == |argv| then Refused(MissingValue(tok))
    else if tok == CMD_TYPE_BIOS then Created(BiosCommand(argv[pos + 1]), pos + 1)
    else if tok == CMD_TYPE_ROM then Created(RomCommand(argv[pos + 1]), pos + 1)
    else Created(BreakpointCommand(argv[pos + 1]), pos + 1)
  }

  /** `execute()`: each command sets only its own member. */
  function Execute(c: Config, cmd: Command): (r: Config)
    ensures cmd.BiosCommand? ==> r == c.(bios := cmd.bios)
    ensures cmd.RomCommand? ==> r == c.(rom := cmd.rom)
    ensures cmd.BreakpointCommand? ==> r.bios == c.bios && r.rom == c.rom && c.breakpoints <= r.breakpoints
  {
    match cmd
    case BiosCommand(b) => c.(bios := b)
    case RomCommand(rm) => c.(rom := rm)
    case BreakpointCommand(bps) =>
      var (bp, outcome) := InsertAll(c.breakpoints, Fields(bps));
      c.(breakpoints := bp, outcome := outcome)
  }

  /** The constructor's loop from position pos, until the tokens run out or something stops it. */
  function Run(argv: seq<string>, pos: nat, c: Config): Config
    requires pos <= |argv|
    decreases |argv| - pos
  {
    if pos == |argv| || c.outcome != Parsed then c
    else match CreateCommand(argv, pos)
      case Refused(outcome) => c.(outcome := outcome)
      case Created(cmd, p) => Run(argv, p + 1, Execute(c, cmd))
  }

  /** `ArgumentHandler(argc, argv)`. */
  function Parse(argv: seq<string>): Config {
    Run(argv, 0, Empty)
  }

  // ---------------------------------------------------------------------
  // Properties of a command line
  // ---------------------------------------------------------------------

  /** Parsing a command line that parsed, then more tokens, continues where the first stopped. */
  lemma {:induction false} RunConcat(a: seq<string>, b: seq<string>, pos: nat, c: Config)
    requires pos <= |a| && Run(a, pos, c).outcome == Parsed
    ensures Run(a + b, pos, c) == Run(b, 0, Run(a, pos, c))
    decreases |a| - pos
  {
    if pos < |a| && c.outcome == Parsed {
      match CreateCommand(a, pos)
      case Refused(outcome) =>
      case Created(cmd, p) =>
        CreateConcat(a, b, pos);
        RunConcat(a, b, p + 1, Execute(c, cmd));
    } else if pos == |a| {
      RunShift(a, b, c);
    }
  }

  /** An option with its value inside a reads the same inside a + b. */
  lemma CreateConcat(a: seq<string>, b: seq<string>, pos: nat)
    requires pos < |a| && CreateCommand(a, pos).Created?
    ensures CreateCommand(a + b, pos) == CreateCommand(a, pos)
  {
    assert (a + b)[pos] == a[pos] && (a + b)[pos + 1] == a[pos + 1];
  }

  /** Parsing from |a| in a + b is parsing b from its start. */
  lemma {:induction false} RunShift(a: seq<string>, b: seq<string>, c: Config)
    ensures Run(a + b, |a|, c) == Run(b, 0, c)
  {
    RunShiftFrom(a, b, 0, c);
  }

  /** A command read at k in b is the one read at |a| + k in a + b, its value |a| further on. */
  lemma CreateShift(a: seq<string>, b: seq<string>, k: nat)
    requires k < |b|
    ensures CreateCommand(a + b, |a| + k) == match CreateCommand(b, k)
      case Refused(o) => Refused(o)
      case Created(cmd, p) => Created(cmd, p + |a|)
  {
    assert (a + b)[|a| + k] == b[k];
    if k + 1 < |b| {
      assert (a + b)[|a| + k + 1] == b[k + 1];
    }
  }

  lemma {:induction false} RunShiftFrom(a: seq<string>, b: seq<string>, k: nat, c: Config)
    requires k <= |b|
    ensures Run(a + b, |a| + k, c) == Run(b, k, c)
    decreases |b| - k
  {
    if k < |b| && c.outcome == Parsed {
      CreateShift(a, b, k);
      match CreateCommand(b, k)
      case Refused(outcome) =>
      case Created(cmd, p) =>
        RunShiftFrom(a, b, p + 1, Execute(c, cmd));
    }
  }

  /** A later "-b" or "-r" replaces the value an earlier one set, and changes nothing else. */
  lemma LastValueWins(argv: seq<string>, v: string)
    requires Parse(argv).outcome == Parsed
    ensures Parse(argv + [CMD_TYPE_BIOS, v]) == Parse(argv).(bios := v)
    ensures Parse(argv + [CMD_TYPE_ROM, v]) == Parse(argv).(rom := v)
  {
    RunConcat(argv, [CMD_TYPE_BIOS, v], 0, Empty);
    RunConcat(argv, [CMD_TYPE_ROM, v], 0, Empty);
  }

  /** A later "-bp" keeps every breakpoint set before it, and adds its own. */
  lemma BreakpointsAccumulate(argv: seq<string>, bps: string)
    requires Parse(argv).outcome == Parsed
    ensures Parse(argv).breakpoints <= Parse(argv + [CMD_TYPE_BREAKPOINTS, bps]).breakpoints
    ensures Parse(argv + [CMD_TYPE_BREAKPOINTS, bps]).outcome == Parsed <==> AllConvert(Fields(bps))
    ensures AllConvert(Fields(bps)) ==>
      Parse(argv + [CMD_TYPE_BREAKPOINTS, bps]).breakpoints == Parse(argv).breakpoints + Addresses(Fields(bps))
  {
    RunConcat(argv, [CMD_TYPE_BREAKPOINTS, bps], 0, Empty);
    InsertAllAdds(Parse(argv).breakpoints, Fields(bps));
  }

  /** Breakpoints never shrink over a whole run. */
  lemma {:induction false} BreakpointsOnlyGrow(argv: seq<string>, pos: nat, c: Config)
    requires pos <= |argv|
    ensures c.breakpoints <= Run(argv, pos, c).breakpoints
    decreases |argv| - pos
  {
    if pos < |argv| && c.outcome == Parsed {
      match CreateCommand(argv, pos)
      case Refused(outcome) =>
      case Created(cmd, p) => BreakpointsOnlyGrow(argv, p + 1, Execute(c, cmd));
    }
  }

  /**
   * Position 0 is parsed like any other, so a command line that starts
   * with the program's name ends at once with that name as an illegal
   * argument; an option's value is never read as an option; an option
   * in last position has no value.
   */
  lemma TokenPositions(name: string, v: string, argv: seq<string>)
    requires name != CMD_TYPE_BIOS && name != CMD_TYPE_ROM && name != CMD_TYPE_BREAKPOINTS
    requires Parse(argv).outcome == Parsed
    ensures Parse([name] + argv) == Empty.(outcome := IllegalArgument(name))
    ensures Parse([CMD_TYPE_BIOS, CMD_TYPE_ROM]) == Empty.(bios := CMD_TYPE_ROM)
    ensures Parse(argv + [CMD_TYPE_ROM]) == Parse(argv).(outcome := MissingValue(CMD_TYPE_ROM))
    ensures Parse([]) == Empty
  {
    assert ([name] + argv)[0] == name;
    var both := [CMD_TYPE_BIOS, CMD_TYPE_ROM];
    assert CreateCommand(both, 0) == Created(BiosCommand(CMD_TYPE_ROM), 1);
    assert Execute(Empty, BiosCommand(CMD_TYPE_ROM)) == Empty.(bios := CMD_TYPE_ROM);
    assert Run(both, 2, Empty.(bios := CMD_TYPE_ROM)) == Empty.(bios := CMD_TYPE_ROM);
    RunConcat(argv, [CMD_TYPE_ROM], 0, Empty);
    assert CreateCommand([CMD_TYPE_ROM], 0) == Refused(MissingValue(CMD_TYPE_ROM));
  }

  /** A trailing comma adds no field. */
  lemma {:induction false} TrailingComma(s: string)
    requires s != [] && s[|s| - 1] != ','
    ensures Fields(s + [',']) == Fields(s)
    decreases |s|
  {
    var t := s + [','];
    var k := FieldEnd(s);
    assert FieldEnd(t) == k by {
      FieldEndAppend(s, [',']);
    }
    FieldsStep(t);
    FieldsStep(s);
    if k == |s| {
      assert t[..k] == s && t[k + 1..] == [];
    } else {
      assert t[..k] == s[..k];
      assert t[k + 1..] == s[k + 1..] + [','];
      TrailingComma(s[k + 1..]);
    }
  }

  /** A lone comma is one empty field, which stoul then rejects; an empty list has no field at all. */
  lemma EmptyFields()
    ensures Fields([',']) == [[]] && Fields([]) == []
  {
    FieldsStep([',']);
  }

  /** Text after a prefix without a comma does not move the first comma inside the prefix. */
  lemma {:induction false} FieldEndAppend(s: string, u: string)
    requires u != [] && u[0] == ','
    ensures FieldEnd(s + u) == FieldEnd(s)
  {
    if s != [] {
      assert (s + u)[0] == s[0] && (s + u)[1..] == s[1..] + u;
      FieldEndAppend(s[1..], u);
    }
  }

  // ---------------------------------------------------------------------
  // The handler object
  // ---------------------------------------------------------------------

  class ArgumentHandler {
    var bios: string
    var rom: string
    var breakpoints: set<word>
    /** Whether the constructor ran to the end, or what stopped it. */
    var outcome: Outcome

    function Current(): Config
      reads this
    {
      Config(bios, rom, breakpoints, outcome)
    }

    /** `ArgumentHandler(argc, argv)`: `for (int i = 0; i != argc; ++i) parse_command(i, argv);`. */
    constructor (argv: seq<string>)
      ensures Current() == Parse(argv)
    {
      bios, rom, breakpoints, outcome := "", "", {}, Parsed;
      new;
      var i := 0;
      while i != |argv| && outcome == Parsed
        invariant 0 <= i <= |argv|
        invariant Run(argv, i, Current()) == Parse(argv)
        decreases |argv| - i
      {
        i := ParseCommand(i, argv);
        i := i + 1;
      }
    }

    /** `parse_command(pos, argv)`: create the command, advancing pos past its value, then execute it. */
    method ParseCommand(pos: nat, argv: seq<string>) returns (pos': nat)
      requires pos < |argv| && outcome == Parsed
      modifies this
      ensures pos < pos' + 1 <= |argv|
      ensures Run(argv, pos' + 1, Current()) == Run(argv, pos, old(Current()))
    {
      var created := CreateCommand(argv, pos);
      match created
      case Refused(o) =>
        outcome := o;
        pos' := pos;
      case Created(cmd, p) =>
        pos' := p;
        ExecuteCommand(cmd);
    }

    /** `Command::execute()` of the command create_command built. */
    method ExecuteCommand(cmd: Command)
      requires outcome == Parsed
      modifies this
      ensures Current() == Execute(old(Current()), cmd)
    {
      match cmd
      case BiosCommand(b) => bios := b;
      case RomCommand(rm) => rom := rm;
      case BreakpointCommand(bps) => outcome := InsertBreakpoints(bps);
    }

    /**
     * `BreakpointCommand::execute()`: each field getline extracts is
     * converted by stoul, truncated to 16 bits and inserted.
     */
    method InsertBreakpoints(bps: string) returns (o: Outcome)
      modifies this`breakpoints
      ensures (breakpoints, o) == InsertAll(old(breakpoints), Fields(bps))
    {
      var rest := bps;
      while rest != []
        invariant InsertAll(breakpoints, Fields(rest)) == InsertAll(old(breakpoints), Fields(bps))
        decreases |rest|
      {
        var k := FieldEnd(rest);
        var breakpoint := rest[..k];
        var next := if k == |rest| then [] else rest[k + 1..];
        FieldsStep(rest);
        InsertAllCons(breakpoints, breakpoint, Fields(next));
        match Strtoul16(breakpoint)
        case NoDigits => return InvalidBreakpoint(breakpoint);
        case OutOfRange => return BreakpointOutOfRange(breakpoint);
        case Converted(n) => breakpoints := breakpoints + {Truncate16(n)};
        rest := next;
      }
      return Parsed;
    }

    method GetBios() returns (b: string)
      ensures b == bios
    {
      b := bios;
    }

    method GetRom() returns (r: string)
      ensures r == rom
    {
      r := rom;
    }

    method GetBreakpoints() returns (bps: set<word>)
      ensures bps == breakpoints
    {
      bps := breakpoints;
    }
  }
}
