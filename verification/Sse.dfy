/**
  Reading server-sent events (section 9.2 of the WHATWG HTML standard) from a
  byte stream. Bytes are written as characters.
*/
module Sse {
  import opened Events

  datatype Frame = Frame(kind: string, data: string)

  datatype HttpError = ResourceExhausted | Invalid

  /** The frames sent before the stream ended or failed. */
  datatype Parsed = Parsed(frames: seq<Frame>, error: Option<HttpError>)

  const MESSAGE := "message"

  /** Position of a character, or the length if it does not occur. */
  function Find(s: string, c: char): (i: nat)
    ensures i <= |s| && c !in s[..i] && (i < |s| ==> s[i] == c)
  {
    if s == "" then 0 else if s[0] == c then 0
    else
      assert s[..Find(s[1..], c) + 1] == [s[0]] + s[1..][..Find(s[1..], c)];
      Find(s[1..], c) + 1
  }

  /** `read_until`: the length of the next line with its line feed. */
  function LineLength(text: string): (n: nat)
    ensures n <= |text| && (text != "" ==> n > 0)
  {
    var i := Find(text, '\n');
    if i < |text| then i + 1 else i
  }

  function TrimOne(line: string, c: char): (r: string) {
    if line != "" && line[|line| - 1] == c then line[..|line| - 1] else line
  }

  function TrimLineEnding(line: string): (r: string) {
    TrimOne(TrimOne(line, '\n'), '\r')
  }

  /** The value of a named field, without one leading space; a name holds no colon. */
  function FieldValue(line: string, name: string): (v: Option<string>) {
    if |line| <= |name| || line[..|name|] != name || line[|name|] != ':' then None
    else Some(StripSpace(line[|name| + 1..]))
  }

  function StripSpace(value: string): (r: string) {
    if value != "" && value[0] == ' ' then value[1..] else value
  }

  /** The search for the first colon finds the same field. */
  lemma FieldAtFirstColon(line: string, name: string)
    requires ':' !in name
    ensures var colon := Find(line, ':');
            FieldValue(line, name) ==
              if colon == |line| || line[..colon] != name then None else Some(StripSpace(line[colon + 1..]))
  {
    var colon := Find(line, ':');
    if |line| > |name| && line[..|name|] == name && line[|name|] == ':' {
      ColonAfter(line, name);
    }
  }

  lemma ColonAfter(line: string, name: string)
    requires ':' !in name && |line| > |name| && line[..|name|] == name && line[|name|] == ':'
    ensures Find(line, ':') == |name|
  {
    var colon := Find(line, ':');
    assert forall i :: 0 <= i < |name| ==> line[i] == name[i];
    assert forall i :: 0 <= i < colon ==> line[..colon][i] == line[i];
  }

  function AddData(data: string, value: string): (r: string) {
    if data == "" then value else data + "\n" + value
  }

  function Emit(kind: string, data: string): (frames: seq<Frame>) {
    if data == "" then [] else [Frame(kind, data)]
  }

  function Then(frames: seq<Frame>, rest: Parsed): (r: Parsed) {
    rest.(frames := frames + rest.frames)
  }

  /** A line as the parser tells lines apart. */
  datatype Line = Blank | Ignored | Name(value: string) | Data(value: string)

  function Classify(line: string): (l: Line) {
    var name, value := FieldValue(line, "event"), FieldValue(line, "data");
    if line == "" then Blank
    else if line[0] == ':' then Ignored
    else if name.Some? then Name(name.value)
    else if value.Some? then Data(value.value)
    else Ignored
  }

  /** A line and the bytes it took, line feed included. */
  datatype Item = Item(size: nat, line: Line)

  function ItemOf(raw: string): (item: Item) {
    Item(|raw|, Classify(TrimLineEnding(raw)))
  }

  function Scan(text: string): (items: seq<Item>) {
    if text == "" then [] else [ItemOf(text[..LineLength(text)])] + Scan(text[LineLength(text)..])
  }

  /** What one line sends, and the event name and data it leaves pending. */
  datatype Turn = Turn(sent: seq<Frame>, kind: string, data: string) | NotUtf8

  function TakeLine(utf8: string -> bool, line: Line, kind: string, data: string): (t: Turn) {
    match line
    case Blank => Turn(Emit(kind, data), MESSAGE, "")
    case Ignored => Turn([], kind, data)
    case Name(value) => if utf8(value) then Turn([], value, data) else NotUtf8
    case Data(value) => Turn([], kind, AddData(data, value))
  }

  /** What is sent from here on, with `left` bytes still granted. */
  function Process(utf8: string -> bool, left: nat, items: seq<Item>, kind: string, data: string): (r: Parsed)
    decreases |items|
  {
    if items == [] then Parsed(Emit(kind, data), None)
    else if items[0].size > left then Parsed([], Some(ResourceExhausted))
    else
      var turn := TakeLine(utf8, items[0].line, kind, data);
      if turn.NotUtf8? then Parsed([], Some(Invalid))
      else Then(turn.sent, Process(utf8, left - items[0].size, items[1..], turn.kind, turn.data))
  }

  function Parse(utf8: string -> bool, maximum: nat, body: string): (r: Parsed) {
    Process(utf8, maximum, Scan(body), MESSAGE, "")
  }

  method ParseSse(utf8: string -> bool, maximum: nat, body: string) returns (frames: seq<Frame>, error: Option<HttpError>)
    ensures Parsed(frames, error) == Parse(utf8, maximum, body)
  {
    frames := [];
    var event, data, unread, bytesRead := MESSAGE, "", body, 0;
    while true
      invariant bytesRead <= maximum
      invariant Then(frames, Process(utf8, maximum - bytesRead, Scan(unread), event, data)) == Parse(utf8, maximum, body)
      decreases |unread|
    {
      var read := LineLength(unread);
      if bytesRead + read > maximum {
        return frames, Some(ResourceExhausted);
      }
      if read == 0 {
        return frames + Emit(event, data), None;
      }
      var turn := TakeLine(utf8, Classify(TrimLineEnding(unread[..read])), event, data);
      if turn.NotUtf8? {
        return frames, Some(Invalid);
      }
      ThenTwice(frames, turn.sent, Process(utf8, maximum - bytesRead - read, Scan(unread[read..]), turn.kind, turn.data));
      assert Scan(unread)[1..] == Scan(unread[read..]);
      frames, event, data := frames + turn.sent, turn.kind, turn.data;
      unread, bytesRead := unread[read..], bytesRead + read;
    }
  }

  lemma ThenTwice(a: seq<Frame>, b: seq<Frame>, rest: Parsed)
    ensures Then(a, Then(b, rest)) == Then(a + b, rest) && Then([], rest) == rest
  {
    assert a + (b + rest.frames) == (a + b) + rest.frames;
    assert [] + rest.frames == rest.frames;
  }

  // Printing frames.

  function Lines(data: string): (r: seq<string>)
    ensures r != []
  {
    var i := Find(data, '\n');
    if i == |data| then [data] else [data[..i]] + Lines(data[i + 1..])
  }

  function PrintField(name: string, value: string): (line: string) {
    name + ": " + value + "\n"
  }

  function DataLines(lines: seq<string>): (r: seq<string>)
    ensures |r| == |lines|
  {
    if lines == [] then [] else [PrintField("data", lines[0])] + DataLines(lines[1..])
  }

  function FrameLines(f: Frame): (r: seq<string>) {
    [PrintField("event", f.kind)] + DataLines(Lines(f.data)) + ["\n"]
  }

  function AllLines(frames: seq<Frame>): (r: seq<string>) {
    if frames == [] then [] else FrameLines(frames[0]) + AllLines(frames[1..])
  }

  function Concat(lines: seq<string>): (text: string) {
    if lines == [] then "" else lines[0] + Concat(lines[1..])
  }

  /** The frames in the standard's format. */
  function PrintAll(frames: seq<Frame>): (text: string) {
    Concat(AllLines(frames))
  }

  /** What survives printing: nonempty data not starting with a line feed, and no carriage return where a line ends. */
  predicate Printable(f: Frame) {
    && '\n' !in f.kind && (f.kind != "" ==> f.kind[|f.kind| - 1] != '\r')
    && f.data != "" && f.data[0] != '\n' && NoTrailingCr(f.data)
  }

  // One line at a time.

  lemma {:induction false} FindFirst(s: string, c: char, rest: string)
    requires c !in s
    ensures Find(s + [c] + rest, c) == |s|
  {
    if s != "" {
      assert (s + [c] + rest)[1..] == s[1..] + [c] + rest;
      FindFirst(s[1..], c, rest);
    }
  }

  /** A field printed as a line reads back, but for a carriage return at its end. */
  lemma FieldReads(name: string, value: string)
    ensures FieldValue(TrimOne(name + ": " + value, '\r'), name) == Some(TrimOne(value, '\r'))
  {
    var line, v := TrimOne(name + ": " + value, '\r'), TrimOne(value, '\r');
    assert line == name + ": " + v;
    assert line[..|name|] == name && line[|name| + 1..] == " " + v && (" " + v)[1..] == v;
  }

  function Total(items: seq<Item>): (n: nat) {
    if items == [] then 0 else items[0].size + Total(items[1..])
  }

  /** One line, ended by the only line feed in it. */
  predicate IsLine(line: string) {
    line != "" && line[|line| - 1] == '\n' && '\n' !in line[..|line| - 1]
  }

  function ItemsOf(lines: seq<string>): (items: seq<Item>)
    ensures |items| == |lines|
  {
    if lines == [] then [] else [ItemOf(lines[0])] + ItemsOf(lines[1..])
  }

  lemma {:induction false} ScanConcat(lines: seq<string>)
    requires forall i :: 0 <= i < |lines| ==> IsLine(lines[i])
    ensures Scan(Concat(lines)) == ItemsOf(lines) && |Concat(lines)| == Total(ItemsOf(lines))
  {
    if lines != [] {
      ScanConcat(lines[1..]);
      FirstLine(lines[0], Concat(lines[1..]));
    }
  }

  lemma {:induction false} ItemsJoin(a: seq<string>, b: seq<string>)
    ensures ItemsOf(a + b) == ItemsOf(a) + ItemsOf(b)
  {
    if a == [] {
      assert a + b == b && ItemsOf(a) + ItemsOf(b) == ItemsOf(b);
    } else {
      assert (a + b)[1..] == a[1..] + b;
      ItemsJoin(a[1..], b);
    }
  }

  lemma FirstLine(line: string, rest: string)
    requires IsLine(line)
    ensures LineLength(line + rest) == |line| && (line + rest)[..|line|] == line && (line + rest)[|line|..] == rest
  {
    var start := line[..|line| - 1];
    assert line + rest == start + ['\n'] + rest;
    FindFirst(start, '\n', rest);
  }

  lemma FieldIsLine(name: string, value: string)
    requires '\n' !in name && '\n' !in value
    ensures IsLine(PrintField(name, value)) && TrimLineEnding(PrintField(name, value)) == TrimOne(name + ": " + value, '\r')
  {
    assert PrintField(name, value)[..|PrintField(name, value)| - 1] == name + ": " + value;
  }

  /** How a printed field is told apart. */
  lemma FieldItem(name: string, value: string)
    requires (name == "event" || name == "data") && '\n' !in value
    ensures ItemOf(PrintField(name, value)).line ==
              if name == "event" then Name(TrimOne(value, '\r')) else Data(TrimOne(value, '\r'))
  {
    FieldIsLine(name, value);
    FieldReads(name, value);
    assert TrimOne(name + ": " + value, '\r')[0] == name[0];
  }

  /** The data a frame's lines add up to when read. */
  function Collect(data: string, lines: seq<string>): (r: string)
    decreases |lines|
  {
    if lines == [] then data else Collect(AddData(data, TrimOne(lines[0], '\r')), lines[1..])
  }

  ghost predicate Plain(lines: seq<string>) {
    forall i :: 0 <= i < |lines| ==> '\n' !in lines[i]
  }

  /** The items printed data lines give. */
  ghost predicate AreData(items: seq<Item>, lines: seq<string>) {
    |items| == |lines| && forall i :: 0 <= i < |lines| ==> items[i].line == Data(TrimOne(lines[i], '\r'))
  }

  lemma {:induction false} DataItems(lines: seq<string>)
    requires Plain(lines)
    ensures AreData(ItemsOf(DataLines(lines)), lines)
  {
    if lines != [] {
      DataItems(lines[1..]);
      FieldItem("data", lines[0]);
    }
  }

  lemma {:induction false} ProcessData(utf8: string -> bool, left: nat, items: seq<Item>, lines: seq<string>, rest: seq<Item>, kind: string, data: string)
    requires Total(items) <= left && AreData(items, lines)
    ensures Process(utf8, left, items + rest, kind, data) ==
              Process(utf8, left - Total(items), rest, kind, Collect(data, lines))
    decreases |lines|
  {
    if lines == [] {
      assert items + rest == rest;
    } else {
      assert (items + rest)[1..] == items[1..] + rest;
      var more := AddData(data, TrimOne(lines[0], '\r'));
      ThenTwice([], [], Process(utf8, left - items[0].size, items[1..] + rest, kind, more));
      ProcessData(utf8, left - items[0].size, items[1..], lines[1..], rest, kind, more);
    }
  }

  lemma {:induction false} LinesPlain(data: string)
    ensures Plain(Lines(data))
    decreases |data|
  {
    var i := Find(data, '\n');
    if i < |data| {
      LinesPlain(data[i + 1..]);
    } else {
      assert data[..i] == data;
    }
  }

  /** What reading a printed frame sends. */
  function Reread(f: Frame): (frames: seq<Frame>) {
    Emit(TrimOne(f.kind, '\r'), Collect("", Lines(f.data)))
  }

  lemma {:induction false} TotalJoins(a: seq<Item>, b: seq<Item>)
    ensures Total(a + b) == Total(a) + Total(b)
  {
    if a == [] {
      assert a + b == b;
    } else {
      assert (a + b)[1..] == a[1..] + b;
      TotalJoins(a[1..], b);
    }
  }

  /** A frame as items: its name, its data lines and the blank line. */
  ghost predicate AreFrame(items: seq<Item>, f: Frame) {
    && |items| == |Lines(f.data)| + 2 && items[0].line == Name(TrimOne(f.kind, '\r'))
    && AreData(items[1..|items| - 1], Lines(f.data)) && items[|items| - 1].line == Blank
  }

  lemma FrameItems(f: Frame)
    requires '\n' !in f.kind
    ensures AreFrame(ItemsOf(FrameLines(f)), f)
  {
    var head, body := PrintField("event", f.kind), DataLines(Lines(f.data));
    ItemsJoin([head] + body, ["\n"]);
    ItemsJoin([head], body);
    FieldItem("event", f.kind);
    LinesPlain(f.data);
    DataItems(Lines(f.data));
    assert ItemsOf([head]) == [ItemOf(head)] && ItemsOf(["\n"]) == [ItemOf("\n")];
    assert ItemsOf(FrameLines(f)) == [ItemOf(head)] + ItemsOf(body) + [ItemOf("\n")];
    assert ([ItemOf(head)] + ItemsOf(body) + [ItemOf("\n")])[1..|body| + 1] == ItemsOf(body);
  }

  lemma ProcessBlank(utf8: string -> bool, left: nat, blank: Item, rest: seq<Item>, kind: string, data: string)
    requires blank.size <= left && blank.line == Blank
    ensures Process(utf8, left, [blank] + rest, kind, data) == Then(Emit(kind, data), Process(utf8, left - blank.size, rest, MESSAGE, ""))
  {
    assert ([blank] + rest)[1..] == rest;
  }

  lemma ProcessName(utf8: string -> bool, left: nat, name: Item, rest: seq<Item>)
    requires name.size <= left && name.line.Name?
    ensures Process(utf8, left, [name] + rest, MESSAGE, "") ==
              if utf8(name.line.value) then Process(utf8, left - name.size, rest, name.line.value, "")
              else Parsed([], Some(Invalid))
  {
    assert ([name] + rest)[1..] == rest;
    ThenTwice([], [], Process(utf8, left - name.size, rest, name.line.value, ""));
  }

  /** Reading a printed frame, when its name is one line. */
  lemma ProcessFrame(utf8: string -> bool, left: nat, items: seq<Item>, f: Frame, rest: seq<Item>)
    requires AreFrame(items, f) && Total(items) <= left
    ensures Process(utf8, left, items + rest, MESSAGE, "") ==
              if utf8(TrimOne(f.kind, '\r')) then Then(Reread(f), Process(utf8, left - Total(items), rest, MESSAGE, ""))
              else Parsed([], Some(Invalid))
  {
    var name, body, blank := items[0], items[1..|items| - 1], items[|items| - 1];
    assert items == [name] + (body + [blank]);
    TotalJoins([name], body + [blank]);
    TotalJoins(body, [blank]);
    assert items + rest == [name] + (body + ([blank] + rest));
    ProcessName(utf8, left, name, body + ([blank] + rest));
    ProcessData(utf8, left - name.size, body, Lines(f.data), [blank] + rest, name.line.value, "");
    ProcessBlank(utf8, left - name.size - Total(body), blank, rest, name.line.value, Collect("", Lines(f.data)));
  }

  // What comes back.

  /** No line ends in a carriage return. */
  ghost predicate CleanLines(lines: seq<string>) {
    forall i :: 0 <= i < |lines| ==> TrimOne(lines[i], '\r') == lines[i]
  }

  /** Further lines, each after its line feed: as printed, and as read. */
  function Raw(lines: seq<string>): (r: string) {
    if lines == [] then "" else "\n" + lines[0] + Raw(lines[1..])
  }

  function Trimmed(lines: seq<string>): (r: string) {
    if lines == [] then "" else "\n" + TrimOne(lines[0], '\r') + Trimmed(lines[1..])
  }

  lemma RawJoin(lines: seq<string>, data: string)
    requires lines != [] && lines[0] + Raw(lines[1..]) == data
    ensures Raw(lines) == "\n" + data
  {
    assert "\n" + lines[0] + Raw(lines[1..]) == "\n" + (lines[0] + Raw(lines[1..]));
  }

  lemma Cut(data: string, i: nat)
    requires i < |data| && data[i] == '\n'
    ensures data[..i] + ("\n" + data[i + 1..]) == data
  {
  }

  lemma {:induction false} LinesJoin(data: string)
    ensures Lines(data)[0] + Raw(Lines(data)[1..]) == data
    decreases |data|
  {
    var i := Find(data, '\n');
    if i < |data| {
      var first, rest := data[..i], data[i + 1..];
      LinesJoin(rest);
      RawJoin(Lines(rest), rest);
      Cut(data, i);
      assert Lines(data) == [first] + Lines(rest) && ([first] + Lines(rest))[1..] == Lines(rest);
    } else {
      assert Lines(data) == [data] && [data][1..] == [] && data + "" == data;
    }
  }

  lemma CleanCons(lines: seq<string>)
    requires lines != []
    ensures CleanLines(lines) <==> TrimOne(lines[0], '\r') == lines[0] && CleanLines(lines[1..])
  {
    assert forall i :: 0 <= i < |lines| - 1 ==> lines[1..][i] == lines[i + 1];
  }

  /** Trimming loses something exactly if a line ends in a carriage return. */
  lemma {:induction false} TrimmedShort(lines: seq<string>)
    ensures if CleanLines(lines) then Trimmed(lines) == Raw(lines) else |Trimmed(lines)| < |Raw(lines)|
  {
    if lines != [] {
      CleanCons(lines);
      TrimmedShort(lines[1..]);
    }
  }

  lemma {:induction false} CollectAfter(data: string, lines: seq<string>)
    requires data != ""
    ensures Collect(data, lines) == data + Trimmed(lines)
    decreases |lines|
  {
    if lines != [] {
      var next := AddData(data, TrimOne(lines[0], '\r'));
      CollectAfter(next, lines[1..]);
      assert next + Trimmed(lines[1..]) == data + ("\n" + TrimOne(lines[0], '\r') + Trimmed(lines[1..]));
    }
  }

  /** Leading empty lines are lost. */
  lemma {:induction false} CollectLoses(lines: seq<string>)
    requires lines != []
    ensures |Collect("", lines)| < |Raw(lines)|
    decreases |lines|
  {
    var first := TrimOne(lines[0], '\r');
    if first != "" {
      CollectAfter(first, lines[1..]);
      TrimmedShort(lines[1..]);
    } else if |lines| > 1 {
      CollectLoses(lines[1..]);
    } else {
      assert Collect("", lines) == Collect("", lines[1..]) == "";
    }
  }

  /** The data reads back exactly if its first line is not empty and no line is trimmed. */
  lemma CollectExact(data: string)
    requires data != ""
    ensures Collect("", Lines(data)) == data <==> Lines(data)[0] != "" && CleanLines(Lines(data))
  {
    var lines := Lines(data);
    var first, more := TrimOne(lines[0], '\r'), lines[1..];
    LinesJoin(data);
    CleanCons(lines);
    if first != "" {
      CollectAfter(first, more);
      TrimmedShort(more);
    } else if more != [] {
      CollectLoses(more);
    } else {
      assert Collect("", lines) == Collect("", more) == "";
    }
  }

  /** No carriage return stands right before a line feed or at the end. */
  predicate NoTrailingCr(data: string) {
    forall i :: 0 <= i < |data| && data[i] == '\r' ==> i + 1 < |data| && data[i + 1] != '\n'
  }

  lemma {:induction false} CleanMeans(data: string)
    ensures CleanLines(Lines(data)) <==> NoTrailingCr(data)
    decreases |data|
  {
    var i := Find(data, '\n');
    CleanCons(Lines(data));
    if i < |data| {
      var rest := data[i + 1..];
      CleanMeans(rest);
      assert Lines(data)[0] == data[..i] && Lines(data)[1..] == Lines(rest);
      CutCr(data, i);
    } else {
      assert Lines(data) == [data] && Lines(data)[1..] == [];
      LastCr(data);
    }
  }

  lemma LastCr(data: string)
    requires '\n' !in data
    ensures TrimOne(data, '\r') == data <==> NoTrailingCr(data)
  {
  }

  lemma CutCr(data: string, i: nat)
    requires i < |data| && data[i] == '\n' && '\n' !in data[..i]
    ensures NoTrailingCr(data) <==> TrimOne(data[..i], '\r') == data[..i] && NoTrailingCr(data[i + 1..])
  {
    var first, rest := data[..i], data[i + 1..];
    assert forall j :: 0 <= j < i ==> first[j] == data[j] != '\n';
    assert forall j :: 0 <= j < |rest| ==> rest[j] == data[i + 1 + j];
    if NoTrailingCr(data) {
      forall j | 0 <= j < |rest| && rest[j] == '\r'
        ensures j + 1 < |rest| && rest[j + 1] != '\n'
      {
        assert data[i + 1 + j] == '\r' && data[i + 1 + j + 1] != '\n';
      }
    } else {
      var j :| 0 <= j < |data| && data[j] == '\r' && !(j + 1 < |data| && data[j + 1] != '\n');
      if j > i {
        assert rest[j - i - 1] == '\r' && (j + 1 < |data| ==> rest[j - i] == data[j + 1]);
      } else if j == i - 1 {
        assert first[i - 1] == '\r';
      }
    }
  }

  lemma FirstLineEmpty(data: string)
    ensures Lines(data)[0] == "" <==> data == "" || data[0] == '\n'
  {
  }

  /** One frame reads back exactly if it is printable. */
  lemma RereadExact(f: Frame)
    requires '\n' !in f.kind
    ensures Reread(f) == [f] <==> Printable(f)
  {
    if f.data != "" {
      CollectExact(f.data);
      CleanMeans(f.data);
      FirstLineEmpty(f.data);
    }
  }

  lemma FrameIsLines(f: Frame)
    requires '\n' !in f.kind
    ensures forall i :: 0 <= i < |FrameLines(f)| ==> IsLine(FrameLines(f)[i])
  {
    FieldIsLine("event", f.kind);
    LinesPlain(f.data);
    DataIsLines(Lines(f.data));
  }

  lemma {:induction false} DataIsLines(lines: seq<string>)
    requires Plain(lines)
    ensures forall i :: 0 <= i < |lines| ==> IsLine(DataLines(lines)[i])
  {
    if lines != [] {
      DataIsLines(lines[1..]);
      FieldIsLine("data", lines[0]);
    }
  }

  ghost predicate OneLineKinds(frames: seq<Frame>) {
    forall i :: 0 <= i < |frames| ==> '\n' !in frames[i].kind
  }

  lemma {:induction false} AllAreLines(frames: seq<Frame>)
    requires OneLineKinds(frames)
    ensures forall i :: 0 <= i < |AllLines(frames)| ==> IsLine(AllLines(frames)[i])
  {
    if frames != [] {
      FrameIsLines(frames[0]);
      AllAreLines(frames[1..]);
    }
  }

  function AllItems(frames: seq<Frame>): (items: seq<Item>) {
    if frames == [] then [] else ItemsOf(FrameLines(frames[0])) + AllItems(frames[1..])
  }

  lemma {:induction false} ItemsOfAll(frames: seq<Frame>)
    ensures ItemsOf(AllLines(frames)) == AllItems(frames)
  {
    if frames != [] {
      ItemsJoin(FrameLines(frames[0]), AllLines(frames[1..]));
      ItemsOfAll(frames[1..]);
    }
  }

  /** No more frames come back than were printed, and all come back exactly if all are printable. */
  lemma {:induction false} AllReread(utf8: string -> bool, left: nat, frames: seq<Frame>)
    requires OneLineKinds(frames) && Total(AllItems(frames)) <= left
    requires forall i :: 0 <= i < |frames| ==> utf8(frames[i].kind)
    ensures var r := Process(utf8, left, AllItems(frames), MESSAGE, "");
            |r.frames| <= |frames| && (r == Parsed(frames, None) <==> forall i :: 0 <= i < |frames| ==> Printable(frames[i]))
  {
    if frames != [] {
      var f, items, more := frames[0], ItemsOf(FrameLines(frames[0])), AllItems(frames[1..]);
      TotalJoins(items, more);
      FrameItems(f);
      ProcessFrame(utf8, left, items, f, more);
      AllReread(utf8, left - Total(items), frames[1..]);
      RereadExact(f);
      FirstAndRest(utf8, f, frames, Process(utf8, left - Total(items), more, MESSAGE, ""));
    }
  }

  lemma FirstAndRest(utf8: string -> bool, f: Frame, frames: seq<Frame>, rest: Parsed)
    requires frames != [] && f == frames[0] && utf8(f.kind) && |rest.frames| <= |frames| - 1
    requires Reread(f) == [f] <==> Printable(f)
    requires rest == Parsed(frames[1..], None) <==> forall i :: 0 <= i < |frames| - 1 ==> Printable(frames[1..][i])
    ensures var r := if utf8(TrimOne(f.kind, '\r')) then Then(Reread(f), rest) else Parsed([], Some(Invalid));
            |r.frames| <= |frames| && (r == Parsed(frames, None) <==> forall i :: 0 <= i < |frames| ==> Printable(frames[i]))
  {
    assert frames == [f] + frames[1..];
    assert (forall i :: 0 <= i < |frames| ==> Printable(frames[i])) <==>
      Printable(f) && forall i :: 0 <= i < |frames| - 1 ==> Printable(frames[1..][i]) by {
      assert forall i :: 0 < i < |frames| ==> frames[i] == frames[1..][i - 1];
    }
    if Reread(f) == [] {
      assert Then(Reread(f), rest).frames == rest.frames;
    } else {
      var g := Reread(f)[0];
      assert Then(Reread(f), rest).frames == [g] + rest.frames;
      if [g] + rest.frames == frames {
        assert g == ([g] + rest.frames)[0] && rest.frames == ([g] + rest.frames)[1..];
      }
    }
  }

  // Names never hold a line feed, and the byte limit is exact.

  ghost predicate PlainNames(items: seq<Item>) {
    forall i :: 0 <= i < |items| && items[i].line.Name? ==> '\n' !in items[i].line.value
  }

  lemma {:induction false} ScanPlain(text: string)
    ensures PlainNames(Scan(text)) && Total(Scan(text)) == |text|
    decreases |text|
  {
    if text != "" {
      var n := LineLength(text);
      ScanPlain(text[n..]);
      FirstPlain(text);
      assert Scan(text)[1..] == Scan(text[n..]);
    }
  }

  lemma FirstPlain(text: string)
    requires text != ""
    ensures var item := ItemOf(text[..LineLength(text)]); item.line.Name? ==> '\n' !in item.line.value
  {
    assert TrimOne(text[..LineLength(text)], '\n') == text[..Find(text, '\n')];
  }

  lemma {:induction false} KindsPlain(utf8: string -> bool, left: nat, items: seq<Item>, kind: string, data: string)
    requires PlainNames(items) && '\n' !in kind
    ensures OneLineKinds(Process(utf8, left, items, kind, data).frames)
    decreases |items|
  {
    if items != [] && items[0].size <= left {
      var turn := TakeLine(utf8, items[0].line, kind, data);
      if turn.Turn? {
        KindsPlain(utf8, left - items[0].size, items[1..], turn.kind, turn.data);
      }
    }
  }

  lemma {:induction false} LimitExact(utf8: string -> bool, left: nat, items: seq<Item>, kind: string, data: string)
    ensures Total(items) > left ==> Process(utf8, left, items, kind, data).error.Some?
    ensures Process(utf8, left, items, kind, data).error == Some(ResourceExhausted) ==> Total(items) > left
    decreases |items|
  {
    if items != [] && items[0].size <= left {
      var turn := TakeLine(utf8, items[0].line, kind, data);
      if turn.Turn? {
        LimitExact(utf8, left - items[0].size, items[1..], turn.kind, turn.data);
      }
    }
  }

  /** A body within the grant is never refused for its size; a larger one never ends without an error. */
  lemma OverLimit(utf8: string -> bool, maximum: nat, body: string)
    ensures |body| > maximum ==> Parse(utf8, maximum, body).error.Some?
    ensures Parse(utf8, maximum, body).error == Some(ResourceExhausted) ==> |body| > maximum
  {
    ScanPlain(body);
    LimitExact(utf8, maximum, Scan(body), MESSAGE, "");
  }

  /**
    Server-sent events round trip: printed frames within the grant read back
    as the same frames exactly if every frame is printable.
  */
  lemma RoundTrip(utf8: string -> bool, maximum: nat, frames: seq<Frame>)
    requires |PrintAll(frames)| <= maximum && forall i :: 0 <= i < |frames| ==> utf8(frames[i].kind)
    ensures Parse(utf8, maximum, PrintAll(frames)) == Parsed(frames, None) <==>
              forall i :: 0 <= i < |frames| ==> Printable(frames[i])
  {
    if OneLineKinds(frames) {
      AllAreLines(frames);
      ScanConcat(AllLines(frames));
      ItemsOfAll(frames);
      AllReread(utf8, maximum, frames);
    } else {
      ScanPlain(PrintAll(frames));
      KindsPlain(utf8, maximum, Scan(PrintAll(frames)), MESSAGE, "");
    }
  }

  // Lines and frames that printing does not produce.

  /** The line gives the field this value: after the colon, and after one space if there is one. */
  predicate Gives(line: string, name: string, value: string) {
    line == name + ": " + value || (line == name + ":" + value && (value == "" || value[0] != ' '))
  }

  lemma FieldMeans(line: string, name: string, value: string)
    ensures FieldValue(line, name) == Some(value) <==> Gives(line, name, value)
  {
    if |line| > |name| && line[..|name|] == name && line[|name|] == ':' {
      var rest := line[|name| + 1..];
      assert line == name + ":" + rest;
      if rest != "" && rest[0] == ' ' {
        assert rest == " " + rest[1..] && line == name + ": " + rest[1..];
        assert forall v :: name + ": " + v == line ==> v == line[|name| + 2..];
        assert forall v :: name + ":" + v == line ==> v == rest;
      } else {
        assert forall v :: name + ":" + v == line ==> v == rest;
        assert forall v :: name + ": " + v == line ==> rest[0] == ' ';
      }
    } else {
      assert forall v :: (name + ": " + v)[..|name|] == name && (name + ": " + v)[|name|] == ':';
      assert forall v :: (name + ":" + v)[..|name|] == name && (name + ":" + v)[|name|] == ':';
    }
  }

  /** How lines are told apart: blank, an event name, data, and everything else, which counts for nothing. */
  lemma ClassifyMeans(line: string, value: string)
    ensures Classify(line) == Blank <==> line == ""
    ensures Classify(line) == Name(value) <==> Gives(line, "event", value)
    ensures Classify(line) == Data(value) <==> Gives(line, "data", value)
  {
    FieldMeans(line, "event", value);
    FieldMeans(line, "data", value);
  }

  ghost predicate AllPrintable(utf8: string -> bool, frames: seq<Frame>) {
    forall i :: 0 <= i < |frames| ==> Printable(frames[i]) && utf8(frames[i].kind)
  }

  lemma PrintableReads(utf8: string -> bool, left: nat, f: Frame, items: seq<Item>, rest: seq<Item>)
    requires Printable(f) && utf8(f.kind) && items == ItemsOf(FrameLines(f)) && Total(items) <= left
    ensures Process(utf8, left, items + rest, MESSAGE, "") == Then([f], Process(utf8, left - Total(items), rest, MESSAGE, ""))
  {
    FrameItems(f);
    RereadExact(f);
    ProcessFrame(utf8, left, items, f, rest);
  }

  lemma FirstThen(frames: seq<Frame>, q: Parsed, after: Parsed)
    requires frames != [] && q == Then(frames[1..], after)
    ensures Then([frames[0]], q) == Then(frames, after)
  {
    assert [frames[0]] + (frames[1..] + after.frames) == frames + after.frames;
  }

  lemma {:induction false} ProcessJoins(utf8: string -> bool, left: nat, spare: nat, frames: seq<Frame>, rest: seq<Item>, after: Parsed)
    requires left == Total(AllItems(frames)) + spare && AllPrintable(utf8, frames)
    requires after == Process(utf8, spare, rest, MESSAGE, "")
    ensures Process(utf8, left, AllItems(frames) + rest, MESSAGE, "") == Then(frames, after)
    decreases |frames|
  {
    if frames == [] {
      NoItems(frames);
      assert AllItems(frames) + rest == rest && Then(frames, after) == after;
    } else {
      var items, more := ItemsOf(FrameLines(frames[0])), AllItems(frames[1..]);
      assert AllItems(frames) == items + more;
      TotalJoins(items, more);
      ProcessJoins(utf8, left - Total(items), spare, frames[1..], rest, after);
      FirstJoins(utf8, left, frames, items, more, rest, after);
    }
  }

  lemma NoItems(frames: seq<Frame>)
    requires frames == []
    ensures AllItems(frames) == [] && Total(AllItems(frames)) == 0
  {
  }

  lemma FirstJoins(utf8: string -> bool, left: nat, frames: seq<Frame>, items: seq<Item>, more: seq<Item>, rest: seq<Item>, after: Parsed)
    requires frames != [] && Printable(frames[0]) && utf8(frames[0].kind)
    requires items == ItemsOf(FrameLines(frames[0])) && Total(items) <= left
    requires Process(utf8, left - Total(items), more + rest, MESSAGE, "") == Then(frames[1..], after)
    ensures Process(utf8, left, items + more + rest, MESSAGE, "") == Then(frames, after)
  {
    PrintableReads(utf8, left, frames[0], items, more + rest);
    FirstThen(frames, Then(frames[1..], after), after);
    assert items + more + rest == items + (more + rest);
  }

  /** What a data-only frame is worth after any others, whether a blank line or the end of the stream closes it. */
  lemma ProcessBare(utf8: string -> bool, left: nat, items: seq<Item>, blank: seq<Item>, data: string)
    requires AreData(items, Lines(data)) && Printable(Frame("message", data))
    requires blank == [] || (|blank| == 1 && blank[0].line == Blank)
    requires Total(items + blank) <= left
    ensures Process(utf8, left, items + blank, MESSAGE, "") == Parsed([Frame("message", data)], None)
  {
    TotalJoins(items, blank);
    ProcessData(utf8, left, items, Lines(data), blank, MESSAGE, "");
    CollectExact(data);
    CleanMeans(data);
    FirstLineEmpty(data);
    if blank != [] {
      assert blank == [blank[0]] + [];
      ProcessBlank(utf8, left - Total(items), blank[0], [], MESSAGE, data);
    }
  }

  /** Frames, and a last one without a name, closed by a blank line or by the end. */
  function BareLines(frames: seq<Frame>, data: string, closed: bool): (lines: seq<string>) {
    AllLines(frames) + (DataLines(Lines(data)) + if closed then ["\n"] else [])
  }

  lemma BareScans(frames: seq<Frame>, data: string, closed: bool) returns (items: seq<Item>, blank: seq<Item>)
    requires OneLineKinds(frames)
    ensures AreData(items, Lines(data)) && (blank == [] || (|blank| == 1 && blank[0].line == Blank))
    ensures Scan(Concat(BareLines(frames, data, closed))) == AllItems(frames) + (items + blank)
    ensures |Concat(BareLines(frames, data, closed))| == Total(AllItems(frames)) + Total(items + blank)
  {
    var bare, end := DataLines(Lines(data)), if closed then ["\n"] else [];
    items, blank := ItemsOf(bare), ItemsOf(end);
    AllAreLines(frames);
    LinesPlain(data);
    DataIsLines(Lines(data));
    DataItems(Lines(data));
    ScanConcat(BareLines(frames, data, closed));
    ItemsJoin(AllLines(frames), bare + end);
    ItemsJoin(bare, end);
    ItemsOfAll(frames);
    TotalJoins(AllItems(frames), items + blank);
  }

  /**
    A frame without a name is a "message", also right after a named one, and
    the end of the stream closes it as a blank line does.
  */
  lemma BareIsMessage(utf8: string -> bool, maximum: nat, frames: seq<Frame>, data: string, closed: bool)
    requires AllPrintable(utf8, frames) && Printable(Frame("message", data))
    requires |Concat(BareLines(frames, data, closed))| <= maximum
    ensures Parse(utf8, maximum, Concat(BareLines(frames, data, closed))) == Parsed(frames + [Frame("message", data)], None)
  {
    var items, blank := BareScans(frames, data, closed);
    var spare := maximum - Total(AllItems(frames));
    ProcessBare(utf8, spare, items, blank, data);
    ProcessJoins(utf8, maximum, spare, frames, items + blank, Process(utf8, spare, items + blank, MESSAGE, ""));
  }

  /** A comment, or a line that names no known field, changes nothing but the bytes left. */
  lemma OthersIgnored(utf8: string -> bool, left: nat, line: string, rest: seq<Item>, kind: string, data: string)
    requires |line| <= left && TrimLineEnding(line) != ""
    requires forall value :: !Gives(TrimLineEnding(line), "event", value) && !Gives(TrimLineEnding(line), "data", value)
    ensures Process(utf8, left, [ItemOf(line)] + rest, kind, data) == Process(utf8, left - |line|, rest, kind, data)
  {
    var item := ItemOf(line);
    assert ([item] + rest)[1..] == rest;
    if item.line.Name? || item.line.Data? {
      ClassifyMeans(TrimLineEnding(line), item.line.value);
    }
    ThenTwice([], [], Process(utf8, left - |line|, rest, kind, data));
  }
}
