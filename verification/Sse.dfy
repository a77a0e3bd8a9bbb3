/** The streaming reader of server-sent `data:` lines and the printer it reads back. */
module Sse {
  import opened Basics

  /* Lines. */

  predicate NoBreak(s: string) {
    '\n' !in s
  }

  /** The lines with a character put before the first. */
  function Prefixed(c: char, lines: seq<string>): (r: seq<string>)
    requires lines != []
    ensures |r| == |lines|
  {
    [[c] + lines[0]] + lines[1..]
  }

  /** `split("\n")`: never empty; the last item is the unterminated rest. */
  function Split(s: string): (r: seq<string>)
    ensures r != []
  {
    if s == "" then [""]
    else
      var rest := Split(s[1..]);
      if s[0] == '\n' then [""] + rest else Prefixed(s[0], rest)
  }

  function Complete(s: string): seq<string> {
    Split(s)[..|Split(s)| - 1]
  }

  function Rest(s: string): string {
    Split(s)[|Split(s)| - 1]
  }

  /** Splitting in two chunks, carrying the unterminated rest of the first over to the second. */
  lemma {:induction false} SplitChunks(a: string, b: string)
    ensures Split(a + b) == Complete(a) + Split(Rest(a) + b)
  {
    hide *;
    if a == "" {
      EmptySplit();
      assert a + b == b && Rest(a) + b == b && Complete(a) + Split(b) == Split(b);
    } else {
      SplitChunks(a[1..], b);
      SplitFirst(a + b);
      assert (a + b)[0] == a[0] && (a + b)[1..] == a[1..] + b;
      if a[0] == '\n' {
        SplitChunksBreak(a, b);
      } else {
        SplitChunksPrefixed(a, b);
      }
    }
  }

  lemma EmptySplit()
    ensures Complete("") == [] && Rest("") == ""
  {
  }

  lemma SplitFirst(s: string)
    requires s != ""
    ensures Split(s) == if s[0] == '\n' then [""] + Split(s[1..]) else Prefixed(s[0], Split(s[1..]))
  {
  }

  lemma SplitChunksBreak(a: string, b: string)
    requires a != "" && a[0] == '\n' && Split(a[1..] + b) == Complete(a[1..]) + Split(Rest(a[1..]) + b)
    ensures [""] + Split(a[1..] + b) == Complete(a) + Split(Rest(a) + b)
  {
    hide *;
    BreakParts(a);
    Associates([""], Complete(a[1..]), Split(Rest(a[1..]) + b));
  }

  lemma Associates(x: seq<string>, y: seq<string>, z: seq<string>)
    ensures x + (y + z) == (x + y) + z
  {
  }

  lemma BreakParts(a: string)
    requires a != "" && a[0] == '\n'
    ensures Rest(a) == Rest(a[1..]) && Complete(a) == [""] + Complete(a[1..])
  {
    SplitFirst(a);
    hide Split;
    var lines := Split(a[1..]);
    assert ([""] + lines)[..|lines|] == [""] + lines[..|lines| - 1];
  }

  lemma SplitChunksPrefixed(a: string, b: string)
    requires a != "" && a[0] != '\n' && Split(a[1..] + b) == Complete(a[1..]) + Split(Rest(a[1..]) + b)
    ensures Prefixed(a[0], Split(a[1..] + b)) == Complete(a) + Split(Rest(a) + b)
  {
    hide *;
    CharParts(a);
    var c, done, more := a[0], Complete(a[1..]), Split(Rest(a[1..]) + b);
    if done == [] {
      PrefixedSplit(c, Rest(a[1..]) + b);
      assert Rest(a) + b == [c] + (Rest(a[1..]) + b);
      assert done + more == more && [] + Split(Rest(a) + b) == Split(Rest(a) + b);
    } else {
      PrefixedConcat(c, done, more);
    }
  }

  lemma CharParts(a: string)
    requires a != "" && a[0] != '\n'
    ensures Complete(a[1..]) == [] ==> Complete(a) == [] && Rest(a) == [a[0]] + Rest(a[1..])
    ensures Complete(a[1..]) != [] ==> Complete(a) == Prefixed(a[0], Complete(a[1..])) && Rest(a) == Rest(a[1..])
  {
    SplitFirst(a);
    hide Split;
  }

  lemma PrefixedConcat(c: char, done: seq<string>, more: seq<string>)
    requires done != []
    ensures Prefixed(c, done + more) == Prefixed(c, done) + more
  {
    assert (done + more)[1..] == done[1..] + more;
  }

  lemma PrefixedSplit(c: char, s: string)
    requires c != '\n'
    ensures Split([c] + s) == Prefixed(c, Split(s))
  {
    assert ([c] + s)[1..] == s;
  }

  lemma {:induction false} SplitNoBreak(s: string)
    requires NoBreak(s)
    ensures Split(s) == [s]
  {
    if s != "" {
      SplitNoBreak(s[1..]);
      assert [s[0]] + s[1..] == s;
    }
  }

  lemma {:induction false} RestHasNoBreak(s: string)
    ensures NoBreak(Rest(s))
  {
    if s != "" {
      RestHasNoBreak(s[1..]);
    }
  }

  lemma SplitLine(line: string, rest: string)
    requires NoBreak(line)
    ensures Split(line + "\n" + rest) == [line] + Split(rest)
  {
    assert line + "\n" + rest == line + ("\n" + rest);
    BreakSplits(line, rest);
  }

  lemma {:induction false} BreakSplits(line: string, rest: string)
    requires NoBreak(line)
    ensures Split(line + ("\n" + rest)) == [line] + Split(rest)
  {
    var s := line + ("\n" + rest);
    if line == "" {
      assert s == "\n" + rest;
      assert s[1..] == rest;
    } else {
      BreakSplits(line[1..], rest);
      assert [line[0]] + line[1..] == line;
      assert s[1..] == line[1..] + ("\n" + rest);
    }
  }

  /* Payloads. */

  /** The white space that `trim` removes. */
  predicate IsSpace(c: char) {
    var n := c as int;
    9 <= n <= 13 || n == 32 || n == 160 || n == 0x1680 || 0x2000 <= n <= 0x200A || n == 0x2028 || n == 0x2029 || n == 0x202F
    || n == 0x205F || n == 0x3000 || n == 0xFEFF
  }

  function TrimLeft(s: string): string {
    if s != "" && IsSpace(s[0]) then TrimLeft(s[1..]) else s
  }

  function TrimRight(s: string): string {
    if s != "" && IsSpace(s[|s| - 1]) then TrimRight(s[..|s| - 1]) else s
  }

  function Trim(s: string): string {
    TrimLeft(TrimRight(s))
  }

  /** What a line carries: nothing unless it starts with `data:`. */
  function Payload(line: string): Option<string> {
    var trimmed := Trim(line);
    if "data:" <= trimmed then Some(Trim(trimmed[5..])) else None
  }

  /* Reading. */

  datatype End = Open | Stopped | Threw

  /** What has been yielded, and whether the reader goes on, returned at `[DONE]`, or threw on a payload that is not JSON. */
  datatype Read<J> = Read(items: seq<J>, end: End)

  function Then<J>(a: Read<J>, b: Read<J>): Read<J> {
    if a.end == Open then Read(a.items + b.items, b.end) else a
  }

  /** One line, with `parse` for JSON. */
  function ReadLine<J>(line: string, parse: string -> Option<J>): Read<J> {
    var payload := Payload(line);
    if payload.None? then Read([], Open)
    else if payload.value == "[DONE]" then Read([], Stopped)
    else
      match parse(payload.value)
      case None => Read([], Threw)
      case Some(j) => Read([j], Open)
  }

  function ReadLines<J>(lines: seq<string>, parse: string -> Option<J>): Read<J> {
    if lines == [] then Read([], Open) else Then(ReadLine(lines[0], parse), ReadLines(lines[1..], parse))
  }

  /** The whole text at once: its terminated lines. */
  function ReadText<J>(text: string, parse: string -> Option<J>): Read<J> {
    ReadLines(Complete(text), parse)
  }

  lemma ThenAssociates<J>(a: Read<J>, b: Read<J>, c: Read<J>)
    ensures Then(Then(a, b), c) == Then(a, Then(b, c))
  {
    assert (a.items + b.items) + c.items == a.items + (b.items + c.items);
  }

  lemma {:induction false} ReadLinesConcat<J>(a: seq<string>, b: seq<string>, parse: string -> Option<J>)
    ensures ReadLines(a + b, parse) == Then(ReadLines(a, parse), ReadLines(b, parse))
  {
    if a == [] {
      assert a + b == b;
      assert [] + ReadLines(b, parse).items == ReadLines(b, parse).items;
    } else {
      assert (a + b)[1..] == a[1..] + b;
      ReadLinesConcat(a[1..], b, parse);
      ThenAssociates(ReadLine(a[0], parse), ReadLines(a[1..], parse), ReadLines(b, parse));
    }
  }

  /** Reading more text: the lines completed so far, then the carried rest with the new chunk. */
  lemma ReadChunk<J>(text: string, chunk: string, parse: string -> Option<J>)
    ensures ReadText(text + chunk, parse) == Then(ReadText(text, parse), ReadText(Rest(text) + chunk, parse))
    ensures Rest(text + chunk) == Rest(Rest(text) + chunk)
  {
    hide Split, ReadLines;
    SplitChunks(text, chunk);
    var more := Split(Rest(text) + chunk);
    assert Complete(text + chunk) == Complete(text) + more[..|more| - 1];
    ReadLinesConcat(Complete(text), Complete(Rest(text) + chunk), parse);
  }

  /** An unterminated last line is never read. */
  lemma UnterminatedLineIsIgnored<J>(text: string, tail: string, parse: string -> Option<J>)
    requires NoBreak(tail)
    ensures ReadText(text + "\n" + tail, parse) == ReadText(text + "\n", parse)
    ensures ReadText(tail, parse) == Read([], Open)
  {
    SplitNoBreak(tail);
    assert Complete(tail) == [];
    assert ReadText(tail, parse) == Read([], Open);
    hide ReadLines;
    var t := text + "\n";
    SplitChunks(text, "\n");
    RestHasNoBreak(text);
    SplitLine(Rest(text), "");
    assert Rest(text) + "\n" + "" == Rest(text) + "\n";
    assert Rest(t) == "";
    SplitChunks(t, tail);
    assert Rest(t) + tail == tail;
    SplitNoBreak(tail);
    assert Complete(t + tail) == Complete(t);
  }

  /** `chatStream`: however the text arrives in chunks, the reader yields and ends as if it had read it whole. */
  method ChatStream<J>(chunks: seq<string>, parse: string -> Option<J>) returns (read: Read<J>)
    ensures read == ReadText(Concat(chunks), parse)
  {
    hide Split, ReadLines, ReadLine, Then;
    read := Read([], Open);
    var buffer := "";
    var i := 0;
    ghost var text := "";
    EmptyText(parse);
    while i < |chunks|
      invariant 0 <= i <= |chunks|
      invariant text == Concat(chunks[..i])
      invariant buffer == Rest(text) && read == ReadText(text, parse) && read.end == Open
    {
      buffer := buffer + chunks[i];
      ReadChunk(text, chunks[i], parse);
      text := text + chunks[i];
      assert chunks[..i + 1] == chunks[..i] + [chunks[i]];
      ConcatAppend(chunks[..i], chunks[i]);
      var lines := Split(buffer);
      var rest := lines[|lines| - 1];
      lines := lines[..|lines| - 1];
      var more := YieldLines(lines, parse);
      ghost var sofar := read;
      read := Read(read.items + more.items, more.end);
      assert read == Then(sofar, more) by { ThenOpen(sofar, more); }
      buffer := rest;
      i := i + 1;
      if read.end != Open {
        StopsForGood(chunks, i, parse);
        return;
      }
    }
    assert chunks[..i] == chunks;
  }

  lemma ThenOpen<J>(a: Read<J>, b: Read<J>)
    requires a.end == Open
    ensures Then(a, b) == Read(a.items + b.items, b.end)
  {
  }

  lemma EmptyText<J>(parse: string -> Option<J>)
    ensures ReadText("", parse) == Read([], Open) && Rest("") == ""
  {
  }

  /** Once the reader has stopped, chunks it never asks for change nothing. */
  lemma StopsForGood<J>(chunks: seq<string>, i: nat, parse: string -> Option<J>)
    requires i <= |chunks| && ReadText(Concat(chunks[..i]), parse).end != Open
    ensures ReadText(Concat(chunks), parse) == ReadText(Concat(chunks[..i]), parse)
  {
    hide ReadText;
    assert chunks == chunks[..i] + chunks[i..];
    ConcatSplit(chunks[..i], chunks[i..]);
    ReadChunk(Concat(chunks[..i]), Concat(chunks[i..]), parse);
  }

  /** The inner loop over complete lines. */
  method YieldLines<J>(lines: seq<string>, parse: string -> Option<J>) returns (read: Read<J>)
    ensures read == ReadLines(lines, parse)
  {
    hide ReadLine;
    read := Read([], Open);
    var k := 0;
    while k < |lines|
      invariant 0 <= k <= |lines|
      invariant read == ReadLines(lines[..k], parse) && read.end == Open
    {
      var line := ReadLine(lines[k], parse);
      ReadLinesConcat(lines[..k], [lines[k]], parse);
      OneLine(lines[k], parse);
      assert lines[..k + 1] == lines[..k] + [lines[k]];
      read := Read(read.items + line.items, line.end);
      k := k + 1;
      if read.end != Open {
        ReadLinesConcat(lines[..k], lines[k..], parse);
        assert lines == lines[..k] + lines[k..];
        return;
      }
    }
    assert lines[..k] == lines;
  }

  lemma OneLine<J>(line: string, parse: string -> Option<J>)
    ensures ReadLines([line], parse) == ReadLine(line, parse)
  {
    hide ReadLine;
    assert [line][1..] == [];
    var r := ReadLine(line, parse);
    assert r.items + [] == r.items;
  }

  /* Printing. */

  function Frame(frame: string): string {
    "data: " + frame + "\n\n"
  }

  function Print(frames: seq<string>): string {
    if frames == [] then Frame("[DONE]") else Frame(frames[0]) + Print(frames[1..])
  }

  /** `sse_response`: the body it appends to, frame by frame. */
  method SseResponse(frames: seq<string>) returns (body: string)
    ensures body == Print(frames)
  {
    hide Frame;
    body := "";
    var i := 0;
    while i < |frames|
      invariant 0 <= i <= |frames|
      invariant body + Print(frames[i..]) == Print(frames)
    {
      assert frames[i..][1..] == frames[i + 1..];
      assert body + (Frame(frames[i]) + Print(frames[i + 1..])) == (body + Frame(frames[i])) + Print(frames[i + 1..]);
      body := body + Frame(frames[i]);
      i := i + 1;
    }
    body := body + Frame("[DONE]");
  }

  /* Round trip. */

  lemma {:induction false} TrimRightAfter(a: string, l: string)
    ensures TrimRight(a + l) == if TrimRight(l) == "" then TrimRight(a) else a + TrimRight(l)
  {
    if l == "" {
      assert a + l == a;
    } else if IsSpace(l[|l| - 1]) {
      assert (a + l)[..|a + l| - 1] == a + l[..|l| - 1];
      TrimRightAfter(a, l[..|l| - 1]);
    }
  }

  lemma {:induction false} TrimRightTwice(s: string)
    ensures TrimRight(TrimRight(s)) == TrimRight(s)
  {
    if s != "" && IsSpace(s[|s| - 1]) {
      TrimRightTwice(s[..|s| - 1]);
    }
  }

  lemma {:induction false} TrimRightKeeps(s: string)
    ensures TrimRight(s) <= s
  {
    if s != "" && IsSpace(s[|s| - 1]) {
      TrimRightKeeps(s[..|s| - 1]);
    }
  }

  lemma {:induction false} TrimLeftKeeps(s: string)
    ensures NoBreak(s) ==> NoBreak(TrimLeft(s))
  {
    if s != "" && IsSpace(s[0]) {
      TrimLeftKeeps(s[1..]);
    }
  }

  lemma TrimKeepsNoBreak(s: string)
    requires NoBreak(s)
    ensures NoBreak(Trim(s))
  {
    TrimRightKeeps(s);
    TrimLeftKeeps(TrimRight(s));
  }

  lemma FieldTrims()
    ensures TrimRight("data: ") == "data:" && "data: "[..5] == "data:"
  {
    var s := "data: ";
    assert s[..5] == "data:";
    assert !IsSpace("data:"[4]);
  }

  /** A printed line carries its trimmed text. */
  lemma PrintedPayload(l: string)
    ensures Payload("data: " + l) == Some(Trim(l))
  {
    FieldTrims();
    TrimRightAfter("data: ", l);
    var t := TrimRight("data: " + l);
    assert t[0] == 'd' && "data:" <= t;
    assert TrimLeft(t) == t;
    if TrimRight(l) == "" {
      assert t[5..] == "";
    } else {
      var r := TrimRight(l);
      assert t[5..] == " " + r;
      TrimRightAfter(" ", r);
      TrimRightTwice(l);
      assert (" " + r)[1..] == r;
    }
  }

  /** A printed frame is read as its first line, then what follows. */
  lemma ReadPrinted<J>(l: string, rest: string, parse: string -> Option<J>)
    requires NoBreak(l)
    ensures ReadText("data: " + l + "\n" + rest, parse) == Then(ReadLine("data: " + l, parse), ReadText(rest, parse))
  {
    hide ReadLine, Then;
    var line := "data: " + l;
    SplitLine(line, rest);
    assert Complete(line + "\n" + rest) == [line] + Complete(rest);
    ReadLinesConcat([line], Complete(rest), parse);
    OneLine(line, parse);
  }

  lemma ReadBlank<J>(rest: string, parse: string -> Option<J>)
    ensures ReadText("\n" + rest, parse) == ReadText(rest, parse)
  {
    hide ReadLines;
    assert "" + "\n" + rest == "\n" + rest;
    SplitLine("", rest);
    assert Complete("\n" + rest) == [""] + Complete(rest);
    ReadLinesConcat([""], Complete(rest), parse);
    OneLine("", parse);
    BlankLine(parse);
    var r := ReadLines(Complete(rest), parse);
    assert [] + r.items == r.items;
  }

  lemma BlankLine<J>(parse: string -> Option<J>)
    ensures ReadLine("", parse) == Read([], Open)
  {
    assert Trim("") == "";
  }

  /** A frame that the line format can carry. */
  predicate Printable(frame: string) {
    NoBreak(frame) && Trim(frame) == frame && frame != "[DONE]"
  }

  /** The payload texts themselves. */
  function Raw(): string -> Option<string> {
    s => Some(s)
  }

  lemma ReadFrame<J>(frame: string, rest: string, parse: string -> Option<J>)
    requires NoBreak(frame)
    ensures ReadText(Frame(frame) + rest, parse) == Then(ReadLine("data: " + frame, parse), ReadText(rest, parse))
  {
    hide ReadText, ReadLine, Then;
    assert Frame(frame) + rest == "data: " + frame + "\n" + ("\n" + rest);
    ReadPrinted(frame, "\n" + rest, parse);
    ReadBlank(rest, parse);
  }

  lemma ReadDone<J>(parse: string -> Option<J>)
    ensures ReadText(Print([]), parse) == Read([], Stopped)
  {
    hide ReadText, Payload, NoBreak;
    assert Frame("[DONE]") + "" == Frame("[DONE]");
    assert NoBreak("[DONE]") by { DoneIsTrimmed(); }
    ReadFrame("[DONE]", "", parse);
    PrintedPayload("[DONE]");
    DoneIsTrimmed();
  }

  lemma DoneIsTrimmed()
    ensures NoBreak("[DONE]") && Trim("[DONE]") == "[DONE]"
  {
    var s := "[DONE]";
    assert !IsSpace(s[5]) && !IsSpace(s[0]);
  }

  /** Reading what was printed yields exactly the frames and stops at the end marker, if and only if every frame is printable. */
  lemma {:induction false} RoundTrip(frames: seq<string>)
    ensures ReadText(Print(frames), Raw()) == Read(frames, Stopped) <==> forall i :: 0 <= i < |frames| ==> Printable(frames[i])
  {
    if frames == [] {
      ReadDone(Raw());
    } else {
      RoundTrip(frames[1..]);
      FirstFrame(frames);
      assert frames == [frames[0]] + frames[1..];
      assert (forall i :: 0 <= i < |frames| ==> Printable(frames[i]))
        <==> Printable(frames[0]) && forall i :: 0 <= i < |frames[1..]| ==> Printable(frames[1..][i]);
    }
  }

  lemma RawLine(l: string)
    ensures ReadLine("data: " + l, Raw()) == if Trim(l) == "[DONE]" then Read([], Stopped) else Read([Trim(l)], Open)
  {
    hide Payload, Trim;
    PrintedPayload(l);
  }

  /** A string with a line break is a first line, the break, and more. */
  lemma {:induction false} FirstBreak(s: string) returns (line: string, more: string)
    requires !NoBreak(s)
    ensures NoBreak(line) && s == line + "\n" + more
  {
    if s[0] == '\n' {
      line, more := "", s[1..];
    } else {
      assert s == [s[0]] + s[1..];
      line, more := FirstBreak(s[1..]);
      line := [s[0]] + line;
    }
  }

  /** The first payload read is a piece of one line. */
  lemma BrokenFrame(frame: string, rest: string)
    requires !NoBreak(frame)
    ensures
      var items := ReadText(Frame(frame) + rest, Raw()).items;
      items == [] || NoBreak(items[0])
  {
    hide ReadText, ReadLine, NoBreak, Trim;
    var line, more := FirstBreak(frame);
    var after := more + "\n\n" + rest;
    assert Frame(frame) + rest == "data: " + line + "\n" + after;
    ReadPrinted(line, after, Raw());
    RawLine(line);
    TrimKeepsNoBreak(line);
  }

  /** The frames come back exactly when the first one is printable and the others come back. */
  lemma FirstFrame(frames: seq<string>)
    requires frames != []
    ensures
      var whole, tail := ReadText(Print(frames), Raw()), ReadText(Print(frames[1..]), Raw());
      whole == Read(frames, Stopped) <==> Printable(frames[0]) && tail == Read(frames[1..], Stopped)
  {
    hide ReadText, ReadLine, NoBreak, Trim, Frame;
    var frame, rest := frames[0], Print(frames[1..]);
    assert frames == [frame] + frames[1..];
    if NoBreak(frame) {
      ReadFrame(frame, rest, Raw());
      RawLine(frame);
      var tail := ReadText(rest, Raw());
      if Trim(frame) != "[DONE]" {
        assert ([Trim(frame)] + tail.items)[1..] == tail.items;
      }
    } else {
      BrokenFrame(frame, rest);
    }
  }

  /* Any parser. */

  function Parsed<J>(frames: seq<string>, parse: string -> Option<J>): (r: seq<J>)
    requires forall i :: 0 <= i < |frames| ==> parse(frames[i]).Some?
    ensures |r| == |frames| && forall i :: 0 <= i < |r| ==> parse(frames[i]) == Some(r[i])
  {
    seq(|frames|, i requires 0 <= i < |frames| => parse(frames[i]).value)
  }

  /** The first frames, read one by one. */
  lemma {:induction false} FramesRead<J>(frames: seq<string>, n: nat, parse: string -> Option<J>)
    requires n <= |frames| && (forall i :: 0 <= i < n ==> Printable(frames[i]) && parse(frames[i]).Some?)
    ensures
      ReadText(Print(frames), parse) == Then(Read(Parsed(frames[..n], parse), Open), ReadText(Print(frames[n..]), parse))
    decreases n
  {
    hide ReadText, ReadLine, NoBreak, Trim, Frame;
    if n == 0 {
      assert frames[0..] == frames && Parsed(frames[..0], parse) == [];
      var r := ReadText(Print(frames), parse);
      assert [] + r.items == r.items;
    } else {
      FramesRead(frames[1..], n - 1, parse);
      assert frames[1..][n - 1..] == frames[n..];
      ReadFrame(frames[0], Print(frames[1..]), parse);
      PrintableLine(frames[0], parse);
      var first, more := Parsed(frames[1..][..n - 1], parse), ReadText(Print(frames[n..]), parse);
      assert Parsed(frames[..n], parse) == [parse(frames[0]).value] + first;
      ThenAssociates(Read([parse(frames[0]).value], Open), Read(first, Open), more);
    }
  }

  lemma PrintableLine<J>(frame: string, parse: string -> Option<J>)
    requires Printable(frame)
    ensures ReadLine("data: " + frame, parse) == if parse(frame).Some? then Read([parse(frame).value], Open) else Read([], Threw)
  {
    hide Payload;
    PrintedPayload(frame);
  }

  /** With any parser the reader yields the printed frames up to the first that is not JSON, where it throws, or to the end marker. */
  lemma ParsedRoundTrip<J>(frames: seq<string>, n: nat, parse: string -> Option<J>)
    requires n <= |frames| && (forall i :: 0 <= i < |frames| ==> Printable(frames[i]))
    requires (forall i :: 0 <= i < n ==> parse(frames[i]).Some?) && (n < |frames| ==> parse(frames[n]).None?)
    ensures ReadText(Print(frames), parse) == Read(Parsed(frames[..n], parse), if n < |frames| then Threw else Stopped)
  {
    hide ReadText, ReadLine, NoBreak, Trim, Frame;
    FramesRead(frames, n, parse);
    var done := Parsed(frames[..n], parse);
    assert done + [] == done;
    if n < |frames| {
      ReadFrame(frames[n], Print(frames[n + 1..]), parse);
      PrintableLine(frames[n], parse);
      assert frames[n..][1..] == frames[n + 1..];
    } else {
      assert frames[n..] == [];
      ReadDone(parse);
    }
  }

  /** White space before the field name or none behind the colon makes no difference. */
  lemma FieldPayload(lead: string, l: string)
    requires forall i :: 0 <= i < |lead| ==> IsSpace(lead[i])
    ensures Payload(lead + "data:" + l) == Some(Trim(l))
  {
    var field := "data:";
    assert !IsSpace(field[4]) && !IsSpace(field[0]);
    TrimRightAfter(lead + field, l);
    TrimRightAfter(lead, field);
    assert TrimRight(field) == field;
    var r := TrimRight(l);
    assert lead + field + "" == lead + field;
    assert TrimRight(lead + field + l) == lead + (field + r);
    TrimLeftSpaces(lead, field + r);
    assert TrimLeft(field + r) == field + r;
    assert (field + r)[5..] == r && field <= field + r;
    TrimRightTwice(l);
  }

  lemma {:induction false} TrimLeftSpaces(lead: string, s: string)
    requires forall i :: 0 <= i < |lead| ==> IsSpace(lead[i])
    ensures TrimLeft(lead + s) == TrimLeft(s)
  {
    if lead == "" {
      assert lead + s == s;
    } else {
      assert (lead + s)[1..] == lead[1..] + s;
      TrimLeftSpaces(lead[1..], s);
    }
  }
}
