/**
 * The `get_current_time` tool of pkg/ai/tools/get_time.go: its definition, and
 * a handler that formats the clock with Go's `time.RFC1123` layout
 * ("Mon, 02 Jan 2006 15:04:05 MST", the date form of section 5.2.14 of RFC 1123).
 * The clock reading `time.Now()` gives is a parameter.
 */
module GetTime {
  import opened Bytes
  import opened Wrappers
  import opened OpenAI

  const Name: Text := Ascii("get_current_time")
  const Description: Text := Ascii("Returns the current server time.")
  const ObjectType: Text := Ascii("object")

  /** The tool definition: an object schema with no properties and nothing required. */
  function Definition(): (t: Tool)
    ensures t.kind == ToolTypeFunction && t.definition.name == Name
    ensures t.definition.parameters == Parameters(ObjectType, [], [])
  {
    Tool(ToolTypeFunction, FunctionDefinition(Name, Description, Parameters(ObjectType, [], [])))
  }

  type Weekday = d: int | 0 <= d < 7   // Go's time.Weekday: Sunday is 0
  type MonthNumber = m: int | 1 <= m <= 12 witness 1
  type DayOfMonth = d: int | 1 <= d <= 31 witness 1
  type HourOfDay = h: int | 0 <= h < 24
  type Sexagesimal = m: int | 0 <= m < 60

  /**
   * A clock reading in its location, as Go's formatter sees it: calendar fields,
   * the zone's abbreviation (possibly empty) and its offset in seconds east of UTC.
   */
  datatype Clock = Clock(
    year: int, month: MonthNumber, day: DayOfMonth, weekday: Weekday,
    hour: HourOfDay, minute: Sexagesimal, second: Sexagesimal,
    zoneName: Text, offset: int)

  const DayNames: seq<Text> :=
    [Ascii("Sun"), Ascii("Mon"), Ascii("Tue"), Ascii("Wed"), Ascii("Thu"), Ascii("Fri"), Ascii("Sat")]
  const MonthNames: seq<Text> :=
    [Ascii("Jan"), Ascii("Feb"), Ascii("Mar"), Ascii("Apr"), Ascii("May"), Ascii("Jun"),
     Ascii("Jul"), Ascii("Aug"), Ascii("Sep"), Ascii("Oct"), Ascii("Nov"), Ascii("Dec")]

  const Zero: Byte := 48

  predicate IsDigit(b: Byte) {
    Zero <= b < Zero + 10
  }

  predicate IsDigits(t: Text) {
    forall i :: 0 <= i < |t| ==> IsDigit(t[i])
  }

  /**
   * Go's `appendInt(b, u, width)` for `u >= 0`: the decimal digits of `u`,
   * padded on the left with '0' up to `width`.
   */
  function Padded(u: nat, width: nat): (t: Text)
    ensures |t| >= width && |t| >= 1
    ensures IsDigits(t)
    decreases u + width
  {
    if u < 10 && width <= 1 then [Zero + u as Byte]
    else Padded(u / 10, if width == 0 then 0 else width - 1) + [Zero + (u % 10) as Byte]
  }

  /** Go's `appendInt`, signed. */
  function AppendInt(x: int, width: nat): (t: Text)
    ensures |t| >= width && |t| >= 1
  {
    if x < 0 then [Minus] + Padded(-x, width) else Padded(x, width)
  }

  /** Go's `/` on `int`: truncates toward zero. */
  function GoDiv(a: int, b: int): int
    requires b > 0
  {
    if a >= 0 then a / b else -((-a) / b)
  }

  /** The "MST" element: the zone's name, or when it has none the offset as "-0700". */
  function Zone(c: Clock): (z: Text)
    ensures |z| >= 1
    ensures c.zoneName != [] ==> z == c.zoneName
  {
    if c.zoneName != [] then c.zoneName
    else
      var minutes := OffsetMinutes(c);
      var sign := if minutes < 0 then Minus else Plus;
      var m := if minutes < 0 then -minutes else minutes;
      [sign] + AppendInt(m / 60, 2) + AppendInt(m % 60, 2)
  }

  /** The offset in whole minutes east of UTC, truncated toward zero as Go's `/` does. */
  function OffsetMinutes(c: Clock): int {
    GoDiv(c.offset, 60)
  }

  /**
   * A zone without a name, offset by less than 100 hours, is written as a sign
   * (`-` exactly when the offset is at least a minute west) and four digits:
   * the hours and then the minutes of the offset's magnitude.
   */
  lemma ZoneForm(c: Clock)
    requires c.zoneName == [] && -360000 < c.offset < 360000
    ensures var z := Zone(c); var m := OffsetMinutes(c); var a := if m < 0 then -m else m;
      |z| == 5 && (z[0] == Minus <==> m < 0) && (z[0] == Plus <==> m >= 0)
      && IsDigits(z[1..3]) && Value(z[1..3]) == a / 60
      && IsDigits(z[3..5]) && Value(z[3..5]) == a % 60
  {
    var m := OffsetMinutes(c);
    var a := if m < 0 then -m else m;
    assert a < 6000;
    PaddedValue(a / 60, 2);
    PaddedValue(a % 60, 2);
    var z := Zone(c);
    var sign := if m < 0 then Minus else Plus;
    assert z == [sign] + Padded(a / 60, 2) + Padded(a % 60, 2);
    assert z[1..3] == Padded(a / 60, 2);
    assert z[3..5] == Padded(a % 60, 2);
  }

  /** "Mon, 02 Jan 2006" */
  function DatePart(c: Clock): (d: Text)
    ensures |d| >= 16
  {
    DayNames[c.weekday] + Ascii(", ") + AppendInt(c.day, 2) + [Space] + MonthNames[c.month - 1] + [Space]
    + AppendInt(c.year, 4)
  }

  /** "15:04:05" */
  function TimePart(c: Clock): (t: Text)
    ensures |t| >= 8
  {
    AppendInt(c.hour, 2) + [Colon] + AppendInt(c.minute, 2) + [Colon] + AppendInt(c.second, 2)
  }

  /** `Format(time.RFC1123)`. */
  function FormatRFC1123(c: Clock): (t: Text)
    ensures |t| >= 27
  {
    DatePart(c) + [Space] + TimePart(c) + [Space] + Zone(c)
  }

  /** The tool's handler: declines other names, otherwise formats the clock; never an error. */
  function Handle(call: ToolCall, now: Clock): (r: ToolResult)
    ensures r.err == None
    ensures r.out == [] <==> call.name != Name
  {
    if call.name != Name then ToolResult([], None)
    else ToolResult(FormatRFC1123(now), None)
  }

  /** The handler looks at the call's name only, never at its arguments or identifier. */
  lemma HandleIgnoresArguments(c1: ToolCall, c2: ToolCall, now: Clock)
    requires c1.name == c2.name
    ensures Handle(c1, now) == Handle(c2, now)
  {
  }

  // Reading a timestamp back: the partner of the formatter.

  /** The fields an RFC1123 timestamp shows. */
  datatype Stamp = Stamp(weekday: int, day: int, month: int, year: int,
                         hour: int, minute: int, second: int, zone: Text)

  /** The number a digit string spells. */
  function Value(t: Text): int
    requires IsDigits(t)
  {
    if t == [] then 0 else 10 * Value(t[..|t| - 1]) + (t[|t| - 1] - Zero) as int
  }

  /** Position of `t` among `names`, or -1. */
  function IndexOf(names: seq<Text>, t: Text): (i: int)
    ensures -1 <= i < |names|
    ensures 0 <= i ==> names[i] == t
  {
    if names == [] then -1
    else if names[|names| - 1] == t then |names| - 1
    else IndexOf(names[..|names| - 1], t)
  }

  predicate Distinct(names: seq<Text>) {
    forall i, j :: 0 <= i < j < |names| ==> names[i] != names[j]
  }

  /** Reads a timestamp with a four-digit year, as the formatter writes one. */
  function ParseRFC1123(t: Text): Option<Stamp> {
    if |t| < 27 then None
    else
      var wd := IndexOf(DayNames, t[0..3]);
      var mo := IndexOf(MonthNames, t[8..11]);
      if wd < 0 || mo < 0 || t[3..5] != Ascii(", ") || t[7] != Space || t[11] != Space || t[16] != Space
         || t[19] != Colon || t[22] != Colon || t[25] != Space
         || !IsDigits(t[5..7]) || !IsDigits(t[12..16]) || !IsDigits(t[17..19]) || !IsDigits(t[20..22])
         || !IsDigits(t[23..25])
      then None
      else Some(Stamp(wd, Value(t[5..7]), mo + 1, Value(t[12..16]),
                      Value(t[17..19]), Value(t[20..22]), Value(t[23..25]), t[26..]))
  }

  function Pow10(n: nat): nat {
    if n == 0 then 1 else 10 * Pow10(n - 1)
  }

  /** `Padded` spells its number, and uses exactly `width` digits when the number fits. */
  lemma {:induction false} PaddedValue(u: nat, width: nat)
    ensures Value(Padded(u, width)) == u
    ensures 1 <= width && u < Pow10(width) ==> |Padded(u, width)| == width
    decreases u + width
  {
    var t := Padded(u, width);
    if u < 10 && width <= 1 {
      assert t[..0] == [];
    } else {
      var w := if width == 0 then 0 else width - 1;
      PaddedValue(u / 10, w);
      assert t[..|t| - 1] == Padded(u / 10, w);
      if 1 <= width && u < Pow10(width) {
        assert width >= 2;
        assert u / 10 < Pow10(w);
      }
    }
  }

  lemma {:induction false} IndexOfDistinct(names: seq<Text>, i: nat)
    requires Distinct(names) && i < |names|
    ensures IndexOf(names, names[i]) == i
    decreases |names|
  {
    var n := |names| - 1;
    if i < n {
      assert names[n] != names[i];
      var prefix := names[..n];
      assert prefix[i] == names[i];
      IndexOfDistinct(prefix, i);
    }
  }

  lemma NamesDistinct()
    ensures Distinct(DayNames) && Distinct(MonthNames)
  {
    forall i, j | 0 <= i < j < 7 ensures DayNames[i] != DayNames[j] {
      assert DayNames[i][0] != DayNames[j][0] || DayNames[i][1] != DayNames[j][1]
          || DayNames[i][2] != DayNames[j][2];
    }
    forall i, j | 0 <= i < j < 12 ensures MonthNames[i] != MonthNames[j] {
      assert MonthNames[i][0] != MonthNames[j][0] || MonthNames[i][1] != MonthNames[j][1]
          || MonthNames[i][2] != MonthNames[j][2];
    }
  }

  /**
   * Round trip: for years 0 through 9999 the handler's timestamp can be read back
   * into exactly the clock's weekday, day, month, year, hour, minute, second and zone.
   */
  lemma FormatParses(c: Clock)
    requires 0 <= c.year < 10000
    ensures ParseRFC1123(FormatRFC1123(c)) ==
      Some(Stamp(c.weekday, c.day, c.month, c.year, c.hour, c.minute, c.second, Zone(c)))
  {
    var t := FormatRFC1123(c);
    var date, time := DatePart(c), TimePart(c);
    DateSlices(c);
    TimeSlices(c);
    assert t == date + [Space] + time + [Space] + Zone(c);
    assert t[..16] == date;
    assert t[16] == Space;
    assert t[17..25] == time;
    assert t[25] == Space;
    assert t[26..] == Zone(c);
    assert t[0..3] == date[0..3] && t[3..5] == date[3..5] && t[5..7] == date[5..7] && t[7] == date[7];
    assert t[8..11] == date[8..11] && t[11] == date[11] && t[12..16] == date[12..16];
    assert t[17..19] == time[0..2] && t[19] == time[2] && t[20..22] == time[3..5];
    assert t[22] == time[5] && t[23..25] == time[6..8];
    NamesDistinct();
    IndexOfDistinct(DayNames, c.weekday);
    IndexOfDistinct(MonthNames, c.month - 1);
  }

  /**
   * What the handler answers a `get_current_time` call with is the clock in
   * RFC1123 form: reading it back gives every field of the clock.
   */
  lemma HandleReadsBack(call: ToolCall, now: Clock)
    requires call.name == Name && 0 <= now.year < 10000
    ensures Handle(call, now).err == None
    ensures ParseRFC1123(Handle(call, now).out) ==
      Some(Stamp(now.weekday, now.day, now.month, now.year, now.hour, now.minute, now.second, Zone(now)))
  {
    FormatParses(now);
  }

  lemma DateSlices(c: Clock)
    requires 0 <= c.year < 10000
    ensures var d := DatePart(c);
      |d| == 16 && d[0..3] == DayNames[c.weekday] && d[3..5] == Ascii(", ") && d[7] == Space
      && d[8..11] == MonthNames[c.month - 1] && d[11] == Space
      && IsDigits(d[5..7]) && Value(d[5..7]) == c.day && IsDigits(d[12..16]) && Value(d[12..16]) == c.year
  {
    var d2, y4 := AppendInt(c.day, 2), AppendInt(c.year, 4);
    PaddedValue(c.day, 2);
    PaddedValue(c.year, 4);
    var d := DatePart(c);
    assert d == DayNames[c.weekday] + Ascii(", ") + d2 + [Space] + MonthNames[c.month - 1] + [Space] + y4;
    assert d[5..7] == d2;
    assert d[12..16] == y4;
  }

  lemma TimeSlices(c: Clock)
    ensures var t := TimePart(c);
      |t| == 8 && t[2] == Colon && t[5] == Colon
      && IsDigits(t[0..2]) && Value(t[0..2]) == c.hour
      && IsDigits(t[3..5]) && Value(t[3..5]) == c.minute
      && IsDigits(t[6..8]) && Value(t[6..8]) == c.second
  {
    var h2, m2, s2 := AppendInt(c.hour, 2), AppendInt(c.minute, 2), AppendInt(c.second, 2);
    PaddedValue(c.hour, 2);
    PaddedValue(c.minute, 2);
    PaddedValue(c.second, 2);
    var t := TimePart(c);
    assert t == h2 + [Colon] + m2 + [Colon] + s2;
    assert t[0..2] == h2;
    assert t[3..5] == m2;
    assert t[6..8] == s2;
  }
}
