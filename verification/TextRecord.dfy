/** The 512-byte fast formatter, the stream it feeds, and the immediate sink. */
module TextRecord {
  import opened Common
  import opened Errors

  /** The parts of a log entry that reach the text; metadata does not. */
  datatype Entry = Entry(level: Level, error: Error)

  const BUFFER_SIZE: nat := 512
  const MAX_CHUNK: nat := 0x7FFF_FFFF_FFFF_FFFF

  function Digit(d: nat): char
    requires d < 10
  {
    '0' + d as char
  }

  /** Decimal digits without leading zeros, as std::to_chars writes them. */
  function Decimal(n: nat): (s: string)
    ensures |s| > 0 && forall i :: 0 <= i < |s| ==> '0' <= s[i] <= '9'
  {
    if n < 10 then [Digit(n)] else Decimal(n / 10) + [Digit(n % 10)]
  }

  function Value(s: string): nat {
    if |s| == 0 then 0
    else 10 * Value(s[..|s| - 1]) + (if s[|s| - 1] < '0' then 0 else s[|s| - 1] as nat - '0' as nat)
  }

  /** The digits read back as the number, and nothing is padded. */
  lemma {:induction false} DecimalRoundTrip(n: nat)
    ensures Value(Decimal(n)) == n
    ensures n > 0 ==> Decimal(n)[0] != '0'
  {
    if n < 10 {
      assert Decimal(n)[..0] == [];
    } else {
      DecimalRoundTrip(n / 10);
      assert Decimal(n)[..|Decimal(n)| - 1] == Decimal(n / 10);
    }
  }

  function Power10(k: nat): nat { if k == 0 then 1 else 10 * Power10(k - 1) }

  lemma {:induction false} DecimalLength(n: nat, k: nat)
    requires k > 0 && n < Power10(k)
    ensures |Decimal(n)| <= k
  {
    if n >= 10 { DecimalLength(n / 10, k - 1); }
  }

  /** The part of a line in front of the message. */
  function Header(e: Entry): string {
    "[" + LevelName(e.level) + "] [" + CategoryName(e.error.category) + "] code=" +
    Decimal(e.error.code) + " message="
  }

  /** The simple format: one line per record. */
  function Line(e: Entry): string { Header(e) + e.error.message + "\n" }

  lemma PartLengths(e: Entry)
    ensures |LevelName(e.level)| <= 8 && |CategoryName(e.error.category)| <= 10 && |Decimal(e.error.code)| <= 10
  {
    assert Power10(10) == 10_000_000_000 by {
      assert Power10(3) == 1000 && Power10(6) == 1000_000 && Power10(9) == 1000_000_000;
    }
    DecimalLength(e.error.code, 10);
  }

  lemma FailedDiskHeader(e: Entry)
    requires e.level == 4 && e.error.category == FILESYSTEM && e.error.code == 3001
    ensures Header(e) == "[ERROR] [FILESYSTEM] code=3001 message="
  {
    assert Decimal(3001) == "3001" by {
      assert Decimal(30) == "30";
      assert Decimal(300) == "300";
    }
    hide Decimal;
    var names := "[" + "ERROR" + "] [" + "FILESYSTEM" + "] code=";
    assert names == "[ERROR] [FILESYSTEM] code=";
    assert Header(e) == names + "3001" + " message=";
  }

  /** The line that the tests show for a full disk. */
  lemma FailedDiskLine()
    ensures Line(Entry(4, Error(FILESYSTEM, 3001, "disk full"))) == "[ERROR] [FILESYSTEM] code=3001 message=disk full\n"
  {
    FailedDiskHeader(Entry(4, Error(FILESYSTEM, 3001, "disk full")));
    hide Header;
  }

  // ------------------------------------------------------------------ formatter

  /** Copies `text` to the cursor and returns the advanced cursor. */
  method Append(buffer: array<char>, cursor: nat, text: string) returns (next: nat)
    requires cursor + |text| <= buffer.Length
    modifies buffer
    ensures next == cursor + |text|
    ensures buffer[..next] == old(buffer[..cursor]) + text
  {
    next := cursor;
    while next < cursor + |text|
      invariant cursor <= next <= cursor + |text|
      invariant buffer[..next] == old(buffer[..cursor]) + text[..next - cursor]
    {
      buffer[next] := text[next - cursor];
      next := next + 1;
    }
    assert text[..next - cursor] == text;
  }

  /** The pieces in front of the code. */
  method WriteNames(buffer: array<char>, e: Entry) returns (cursor: nat)
    requires buffer.Length == BUFFER_SIZE
    modifies buffer
    ensures cursor <= 29
    ensures buffer[..cursor] == "[" + LevelName(e.level) + "] [" + CategoryName(e.error.category) + "] code="
  {
    PartLengths(e);
    hide LevelName, CategoryName;
    cursor := Append(buffer, 0, "[");
    cursor := Append(buffer, cursor, LevelName(e.level));
    cursor := Append(buffer, cursor, "] [");
    cursor := Append(buffer, cursor, CategoryName(e.error.category));
    cursor := Append(buffer, cursor, "] code=");
  }

  /** The pieces in front of the message, one after the other. */
  method WriteHeader(buffer: array<char>, e: Entry) returns (cursor: nat)
    requires buffer.Length == BUFFER_SIZE
    modifies buffer
    ensures cursor == |Header(e)| <= 48 && buffer[..cursor] == Header(e)
  {
    PartLengths(e);
    hide LevelName, CategoryName, Decimal;
    cursor := WriteNames(buffer, e);
    cursor := Append(buffer, cursor, Decimal(e.error.code));
    cursor := Append(buffer, cursor, " message=");
  }

  /** `prepare_text_record`: the prefix holds the whole line if the message and its
      newline fit into the 512 bytes, and otherwise everything before the message. */
  method PrepareTextRecord(e: Entry) returns (prefix: array<char>, size: nat, messageIsBuffered: bool)
    ensures fresh(prefix) && prefix.Length == BUFFER_SIZE && size <= BUFFER_SIZE
    ensures messageIsBuffered <==> |Line(e)| <= BUFFER_SIZE
    ensures prefix[..size] == if messageIsBuffered then Line(e) else Header(e)
  {
    hide Header;
    prefix := new char[BUFFER_SIZE](i => '\0');
    var cursor := WriteHeader(prefix, e);
    messageIsBuffered := false;
    var remaining := BUFFER_SIZE - cursor;
    if |e.error.message| < remaining {
      cursor := Append(prefix, cursor, e.error.message);
      cursor := Append(prefix, cursor, "\n");
      messageIsBuffered := true;
    }
    size := cursor;
  }

  // --------------------------------------------------------------------- stream

  /** An output stream that takes `room` more bytes and then fails for good. */
  datatype Device = Device(bytes: string, failed: bool, room: nat)

  function Accept(d: Device, text: string): Device {
    if d.failed then d
    else if |text| <= d.room then Device(d.bytes + text, false, d.room - |text|)
    else Device(d.bytes + text[..d.room], true, 0)
  }

  /** Two writes are one write of the concatenation, wherever the stream fails. */
  lemma AcceptConcat(d: Device, a: string, b: string)
    ensures Accept(Accept(d, a), b) == Accept(d, a + b)
  {
    if !d.failed {
      if |a| > d.room {
        assert (a + b)[..d.room] == a[..d.room];
      } else if |a + b| <= d.room {
        assert d.bytes + a + b == d.bytes + (a + b);
      } else {
        assert (a + b)[..d.room] == a + b[..d.room - |a|];
        assert d.bytes + a + b[..d.room - |a|] == d.bytes + (a + b[..d.room - |a|]);
      }
    }
  }

  class Stream {
    var device: Device

    constructor (room: nat)
      ensures device == Device("", false, room)
    {
      device := Device("", false, room);
    }

    method Write(text: string)
      modifies this
      ensures device == Accept(old(device), text)
    {
      if device.failed { return; }
      if |text| <= device.room {
        device := Device(device.bytes + text, false, device.room - |text|);
      } else {
        device := Device(device.bytes + text[..device.room], true, 0);
      }
    }

    method Sync(breaks: bool)
      modifies this
      ensures device == Break(old(device), breaks)
    {
      if breaks { device := device.(failed := true); }
    }
  }

  /** Concatenation of lines. */
  function Flatten(lines: seq<string>): string {
    if |lines| == 0 then "" else Flatten(lines[..|lines| - 1]) + lines[|lines| - 1]
  }

  lemma {:induction false} FlattenConcat(a: seq<string>, b: seq<string>)
    ensures Flatten(a + b) == Flatten(a) + Flatten(b)
    decreases |b|
  {
    if |b| == 0 {
      assert a + b == a;
    } else {
      assert (a + b)[..|a + b| - 1] == a + b[..|b| - 1];
      FlattenConcat(a, b[..|b| - 1]);
    }
  }

  lemma FlattenPush(a: seq<string>, x: string)
    ensures Flatten(a + [x]) == Flatten(a) + x
  {
    assert (a + [x])[..|a|] == a;
  }

  /** What a record is appended or written in: the buffered prefix alone, or the
      prefix, the message and the newline. */
  function Parts(e: Entry): (r: seq<string>)
    ensures |r| > 0
  {
    if |Line(e)| <= BUFFER_SIZE then [Line(e)] else [Header(e), e.error.message, "\n"]
  }

  /** Together the parts are the line, and they start with the prepared prefix. */
  lemma PartsMakeLine(e: Entry)
    ensures Flatten(Parts(e)) == Line(e) && Line(e) != ""
  {
    FlattenPush([], Parts(e)[0]);
    if |Parts(e)| == 3 {
      FlattenPush([Header(e)], e.error.message);
      FlattenPush([Header(e), e.error.message], "\n");
      assert Parts(e) == [Header(e), e.error.message] + ["\n"];
    }
  }

  /** Flushing a stream writes nothing but may reveal a failure. */
  function Break(d: Device, breaks: bool): Device { if breaks then d.(failed := true) else d }

  /** The immediate sink: at most three writes per record, one line on the stream. */
  class ImmediateSink {
    const output: Stream

    constructor (output: Stream)
      ensures this.output == output
    {
      this.output := output;
    }

    method Write(e: Entry) returns (healthy: bool)
      modifies output
      ensures output.device == Accept(old(output.device), Line(e))
      ensures healthy <==> !output.device.failed
    {
      var prefix, size, messageIsBuffered := PrepareTextRecord(e);
      output.Write(prefix[..size]);
      if !messageIsBuffered {
        WriteView(e.error.message);
        output.Write("\n");
        AcceptConcat(old(output.device), Header(e), e.error.message);
        AcceptConcat(old(output.device), Header(e) + e.error.message, "\n");
      }
      healthy := !output.device.failed;
    }

    /** Writes in chunks no longer than a stream size can express. */
    method WriteView(text: string)
      modifies output
      ensures output.device == Accept(old(output.device), text)
    {
      var done := 0;
      while done < |text| && !output.device.failed
        invariant done <= |text|
        invariant output.device == Accept(old(output.device), text[..done])
        decreases |text| - done
      {
        var chunk := Min(|text| - done, MAX_CHUNK);
        AcceptConcat(old(output.device), text[..done], text[done..done + chunk]);
        assert text[..done] + text[done..done + chunk] == text[..done + chunk];
        output.Write(text[done..done + chunk]);
        done := done + chunk;
      }
      if done < |text| {
        AcceptConcat(old(output.device), text[..done], text[done..]);
      }
      assert text[..done] + text[done..] == text;
    }
  }

  // ---------------------------------------------------------------- unambiguity

  lemma SeparatorStops(sep: char, a: string, b: string, x: string, y: string)
    requires sep !in b && a + [sep] + x == b + [sep] + y
    ensures |b| <= |a|
  {
    assert (a + [sep] + x)[|a|] == sep;
    forall i | 0 <= i < |b| ensures (b + [sep] + y)[i] != sep {
      assert b[i] in b;
    }
  }

  /** A separator that does not occur before it marks its place unambiguously. */
  lemma SplitAt(sep: char, a: string, b: string, x: string, y: string)
    requires sep !in a && sep !in b && a + [sep] + x == b + [sep] + y
    ensures a == b && x == y
  {
    SeparatorStops(sep, a, b, x, y);
    SeparatorStops(sep, b, a, y, x);
    var s, t := a + [sep] + x, b + [sep] + y;
    assert a == s[..|a|] == t[..|b|] == b;
    assert x == s[|a| + 1..] == t[|b| + 1..] == y;
  }

  lemma SamePrefix(p: string, s: string, t: string)
    requires p + s == p + t
    ensures s == t
  {
    assert s == (p + s)[|p|..] && t == (p + t)[|p|..];
  }

  lemma SameSuffix(s: string, t: string, p: string)
    requires s + p == t + p
    ensures s == t
  {
    assert |s| == |t|;
    assert s == (s + p)[..|s|] && t == (t + p)[..|t|];
  }

  lemma NamesAreClean(l: Level, c: Category, n: Code)
    ensures ']' !in LevelName(l) && ']' !in CategoryName(c) && ' ' !in Decimal(n)
  {
  }

  // The line, cut behind each of its three separators.
  function AfterCode(e: Entry): string { "message=" + (e.error.message + "\n") }
  function AfterCategory(e: Entry): string { " code=" + (Decimal(e.error.code) + [' '] + AfterCode(e)) }
  function AfterLevel(e: Entry): string { " [" + (CategoryName(e.error.category) + [']'] + AfterCategory(e)) }

  lemma LineParts(e: Entry)
    ensures Line(e) == "[" + (LevelName(e.level) + [']'] + AfterLevel(e))
  {
    var l, c, d, m := LevelName(e.level), CategoryName(e.error.category), Decimal(e.error.code), e.error.message;
    hide LevelName, CategoryName, Decimal;
    var toCode := "[" + l + "] [" + c + "] code=";
    var toCategory := "[" + l + "] [";
    CodePart(toCode, d, m);
    assert Line(e) == toCode + (d + [' '] + AfterCode(e));
    CategoryPart(toCategory, c, d + [' '] + AfterCode(e));
    assert Line(e) == toCategory + (c + [']'] + AfterCategory(e));
    LevelPart(l, c + [']'] + AfterCategory(e));
  }

  lemma CodePart(p: string, d: string, m: string)
    ensures p + d + " message=" + m + "\n" == p + (d + [' '] + ("message=" + (m + "\n")))
  {
  }

  lemma CategoryPart(p: string, c: string, rest: string)
    ensures p + c + "] code=" + rest == p + (c + [']'] + (" code=" + rest))
  {
  }

  lemma LevelPart(l: string, rest: string)
    ensures "[" + l + "] [" + rest == "[" + (l + [']'] + (" [" + rest))
  {
  }

  /** A line tells its level name, category name, code and message, and nothing else. */
  lemma LineDetermines(d: Entry, e: Entry)
    ensures Line(d) == Line(e) <==>
              && LevelName(d.level) == LevelName(e.level)
              && CategoryName(d.error.category) == CategoryName(e.error.category)
              && d.error.code == e.error.code && d.error.message == e.error.message
  {
    LineParts(d);
    LineParts(e);
    if Line(d) == Line(e) {
      hide Line;
      NamesAreClean(d.level, d.error.category, d.error.code);
      NamesAreClean(e.level, e.error.category, e.error.code);
      SamePrefix("[", LevelName(d.level) + [']'] + AfterLevel(d), LevelName(e.level) + [']'] + AfterLevel(e));
      SplitAt(']', LevelName(d.level), LevelName(e.level), AfterLevel(d), AfterLevel(e));
      CategoryDetermined(d, e);
    }
  }

  lemma CategoryDetermined(d: Entry, e: Entry)
    requires AfterLevel(d) == AfterLevel(e)
    ensures CategoryName(d.error.category) == CategoryName(e.error.category)
    ensures d.error.code == e.error.code && d.error.message == e.error.message
  {
    NamesAreClean(d.level, d.error.category, d.error.code);
    NamesAreClean(e.level, e.error.category, e.error.code);
    hide CategoryName, Decimal, AfterCategory;
    var c1, c2 := CategoryName(d.error.category), CategoryName(e.error.category);
    SamePrefix(" [", c1 + [']'] + AfterCategory(d), c2 + [']'] + AfterCategory(e));
    SplitAt(']', c1, c2, AfterCategory(d), AfterCategory(e));
    CodeDetermined(d, e);
  }

  lemma CodeDetermined(d: Entry, e: Entry)
    requires AfterCategory(d) == AfterCategory(e)
    ensures d.error.code == e.error.code && d.error.message == e.error.message
  {
    NamesAreClean(d.level, d.error.category, d.error.code);
    NamesAreClean(e.level, e.error.category, e.error.code);
    DecimalRoundTrip(d.error.code);
    DecimalRoundTrip(e.error.code);
    var n1, n2 := Decimal(d.error.code), Decimal(e.error.code);
    hide Decimal;
    SamePrefix(" code=", n1 + [' '] + AfterCode(d), n2 + [' '] + AfterCode(e));
    SplitAt(' ', n1, n2, AfterCode(d), AfterCode(e));
    SamePrefix("message=", d.error.message + "\n", e.error.message + "\n");
    SameSuffix(d.error.message, e.error.message, "\n");
  }

  /** For declared levels and categories a line determines the whole record. */
  lemma KnownLinesAreInjective(d: Entry, e: Entry)
    requires KnownLevel(d.level) && KnownLevel(e.level)
    requires KnownCategory(d.error.category) && KnownCategory(e.error.category)
    requires Line(d) == Line(e)
    ensures d == e
  {
    LineDetermines(d, e);
    NamesAreDistinct(d.error.category, e.error.category, d.level, e.level);
  }
}
