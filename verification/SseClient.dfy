/** The bundled browser client: it cuts the response text into event blocks as it arrives, reads the
    payload of each block and collects the assistant's text. */
module SseClient {
  import opened Wrappers
  import opened Json
  import opened SseFrames

  // ---------- cutting at blank lines ----------

  /** The first position of a blank line, i.e. of two line breaks in a row. */
  function Boundary(s: string): (at: Option<nat>)
    ensures at.Some? ==> at.value + 2 <= |s| && s[at.value] == s[at.value + 1] == '\n'
    ensures at.Some? ==> forall i | 0 <= i < at.value :: !(s[i] == s[i + 1] == '\n')
    ensures at.None? ==> forall i | 0 <= i < |s| - 1 :: !(s[i] == s[i + 1] == '\n')
  {
    if |s| < 2 then None
    else if s[0] == s[1] == '\n' then Some(0)
    else match Boundary(s[1..])
      case Some(i) =>
        assert forall k | 1 <= k < i + 1 :: s[k] == s[1..][k - 1] && s[k + 1] == s[1..][k];
        Some(i + 1)
      case None =>
        assert forall k | 1 <= k < |s| - 1 :: s[k] == s[1..][k - 1] && s[k + 1] == s[1..][k];
        None
  }

  /** All complete blocks of a text, and the unfinished rest. */
  function Blocks(s: string): (r: (seq<string>, string))
    decreases |s|
  {
    match Boundary(s)
    case None => ([], s)
    case Some(i) =>
      var more := Blocks(s[i + 2..]);
      ([s[..i]] + more.0, more.1)
  }

  lemma BoundaryIs(s: string, at: nat)
    requires at + 2 <= |s| && s[at] == s[at + 1] == '\n'
    requires forall i | 0 <= i < at :: !(s[i] == s[i + 1] == '\n')
    ensures Boundary(s) == Some(at)
  {
  }

  lemma BoundaryOfPrefix(a: string, b: string)
    requires Boundary(a).Some?
    ensures Boundary(a + b) == Boundary(a)
  {
    var at := Boundary(a).value;
    forall i | 0 <= i < at
      ensures !((a + b)[i] == (a + b)[i + 1] == '\n')
    {
      assert (a + b)[i] == a[i] && (a + b)[i + 1] == a[i + 1];
    }
    BoundaryIs(a + b, at);
  }

  /** Cutting a text as it arrives: blocks found so far stay, and the rest is joined with what comes. */
  lemma {:induction false} BlocksOfAppend(a: string, b: string)
    ensures Blocks(a + b) ==
            (Blocks(a).0 + Blocks(Blocks(a).1 + b).0, Blocks(Blocks(a).1 + b).1)
    decreases |a|
  {
    hide Blocks, Boundary;
    match Boundary(a)
    case None =>
      NoBlocks(a);
      assert [] + Blocks(a + b).0 == Blocks(a + b).0;
    case Some(i) =>
      BoundaryOfPrefix(a, b);
      var tail := a[i + 2..];
      assert (a + b)[..i] == a[..i] && (a + b)[i + 2..] == tail + b;
      BlocksOfAppend(tail, b);
      BlocksStep(a, i);
      BlocksStep(a + b, i);
      OneMoreBlock(a[..i], Blocks(tail).0, Blocks(Blocks(tail).1 + b).0);
  }

  lemma OneMoreBlock(first: string, found: seq<string>, later: seq<string>)
    ensures [first] + (found + later) == ([first] + found) + later
  {
  }

  lemma NoBlocks(s: string)
    requires Boundary(s).None?
    ensures Blocks(s) == ([], s)
  {
  }

  lemma BlocksStep(s: string, i: nat)
    requires Boundary(s) == Some(i)
    ensures Blocks(s) == ([s[..i]] + Blocks(s[i + 2..]).0, Blocks(s[i + 2..]).1)
  {
  }

  // ---------- the payload of a block ----------

  /** The lines of a text: it is cut at every line break, and empty lines count. */
  function Lines(s: string): (lines: seq<string>)
    ensures lines != []
    decreases |s|
  {
    if s == [] then [""]
    else if s[0] == '\n' then [""] + Lines(s[1..])
    else
      var rest := Lines(s[1..]);
      [[s[0]] + rest[0]] + rest[1..]
  }

  /** White space and line terminators of ECMAScript, which trimStart removes. */
  predicate IsScriptBlank(c: char) {
    || c == ' ' || 9 <= c as int <= 13 || c as int == 0xA0 || c as int == 0xFEFF
    || c as int == 0x1680 || 0x2000 <= c as int <= 0x200A || c as int == 0x2028 || c as int == 0x2029
    || c as int == 0x202F || c as int == 0x205F || c as int == 0x3000
  }

  function TrimStart(s: string): string {
    if s != [] && IsScriptBlank(s[0]) then TrimStart(s[1..]) else s
  }

  const DATA := "data:"

  function DataLine(line: string): seq<string> {
    if DATA <= line then [TrimStart(line[5..])] else []
  }

  function DataLines(lines: seq<string>): seq<string> {
    if lines == [] then [] else DataLines(lines[..|lines| - 1]) + DataLine(lines[|lines| - 1])
  }

  function Join(parts: seq<string>): string {
    if parts == [] then ""
    else if |parts| == 1 then parts[0]
    else parts[0] + "\n" + Join(parts[1..])
  }

  function EventData(block: string): string {
    Join(DataLines(Lines(block)))
  }

  /** The lines of a text have no line break, and joined by line breaks they are the text. */
  lemma {:induction false} LinesExactly(s: string)
    ensures Join(Lines(s)) == s && forall i | 0 <= i < |Lines(s)| :: '\n' !in Lines(s)[i]
    decreases |s|
  {
    if s != [] {
      LinesExactly(s[1..]);
      var rest := Lines(s[1..]);
      if s[0] == '\n' {
        assert ([""] + rest)[1..] == rest;
        assert s == "\n" + s[1..];
      } else {
        var first := [s[0]] + rest[0];
        assert Lines(s) == [first] + rest[1..];
        assert ([first] + rest[1..])[1..] == rest[1..];
        if |rest| == 1 {
          assert s == [s[0]] + rest[0];
        } else {
          assert first + "\n" + Join(rest[1..]) == [s[0]] + (rest[0] + "\n" + Join(rest[1..]));
          assert s == [s[0]] + s[1..];
        }
      }
    }
  }

  /** And no other list of lines is. */
  lemma {:induction false} LinesOfJoin(lines: seq<string>)
    requires lines != [] && forall i | 0 <= i < |lines| :: '\n' !in lines[i]
    ensures Lines(Join(lines)) == lines
    decreases |lines|, |lines[0]|
  {
    var s := Join(lines);
    if lines[0] == "" {
      if |lines| > 1 {
        assert s[0] == '\n' && s[1..] == Join(lines[1..]);
        LinesOfJoin(lines[1..]);
        assert lines == [""] + lines[1..];
      } else {
        assert lines == [""];
      }
    } else {
      var shorter := [lines[0][1..]] + lines[1..];
      assert shorter[1..] == lines[1..];
      assert s[0] == lines[0][0] && lines[0][0] in lines[0];
      assert s[1..] == Join(shorter);
      LinesOfJoin(shorter);
      assert lines[0] == [lines[0][0]] + shorter[0];
      assert lines == [lines[0]] + lines[1..];
    }
  }

  lemma {:induction false} TrimStartExactly(s: string) returns (n: nat)
    ensures n <= |s| && TrimStart(s) == s[n..] && (n < |s| ==> !IsScriptBlank(s[n]))
    ensures forall i | 0 <= i < n :: IsScriptBlank(s[i])
    decreases |s|
  {
    n := 0;
    if s != [] && IsScriptBlank(s[0]) {
      n := TrimStartExactly(s[1..]);
      n := n + 1;
    }
  }

  /** The places of the lines that carry data. */
  ghost predicate ArePlaces(lines: seq<string>, places: seq<nat>) {
    && (forall j | 0 <= j < |places| :: places[j] < |lines| && "data:" <= lines[places[j]])
    && (forall j, k | 0 <= j < k < |places| :: places[j] < places[k])
    && (forall i | 0 <= i < |lines| && "data:" <= lines[i] :: i in places)
  }

  lemma PlacesSnoc(front: seq<string>, places: seq<nat>, last: string)
    requires ArePlaces(front, places)
    ensures ArePlaces(front + [last], if "data:" <= last then places + [|front|] else places)
  {
    var lines, more := front + [last], if "data:" <= last then places + [|front|] else places;
    assert lines[|front|] == last && forall i | 0 <= i < |front| :: lines[i] == front[i];
    forall i | 0 <= i < |lines| && "data:" <= lines[i] ensures i in more {
      if i < |front| {
        var j :| 0 <= j < |places| && places[j] == i;
        assert more[j] == i;
      } else {
        assert more[|places|] == i;
      }
    }
  }

  /** What these lines carry, without its leading blanks. */
  ghost predicate AreData(lines: seq<string>, places: seq<nat>, data: seq<string>) {
    |data| == |places|
    && forall j | 0 <= j < |places| ::
         places[j] < |lines| && "data:" <= lines[places[j]] && data[j] == TrimStart(lines[places[j]][5..])
  }

  lemma AreDataSnoc(front: seq<string>, places: seq<nat>, data: seq<string>, last: string)
    requires AreData(front, places, data)
    ensures "data:" <= last ==> AreData(front + [last], places + [|front|], data + [TrimStart(last[5..])])
    ensures AreData(front + [last], places, data)
  {
    hide TrimStart;
    assert (front + [last])[|front|] == last && forall i | 0 <= i < |front| :: (front + [last])[i] == front[i];
  }

  lemma DataLinesSnoc(front: seq<string>, last: string)
    ensures DataLines(front + [last]) == if "data:" <= last then DataLines(front) + [TrimStart(last[5..])] else DataLines(front)
  {
    assert (front + [last])[..|front|] == front;
    assert DataLines(front) + [] == DataLines(front);
  }

  lemma NoDataLines(lines: seq<string>, places: seq<nat>)
    requires |lines| == 0 && |places| == 0
    ensures ArePlaces(lines, places) && AreData(lines, places, DataLines(lines))
  {
    assert DataLines(lines) == [];
    hide DataLines, TrimStart;
  }

  lemma {:induction false} DataLinesExactly(lines: seq<string>) returns (places: seq<nat>)
    ensures ArePlaces(lines, places) && AreData(lines, places, DataLines(lines))
    decreases |lines|
  {
    hide ArePlaces, AreData, DataLines, TrimStart;
    places := [];
    if lines == [] {
      NoDataLines(lines, places);
    } else {
      var front, last := lines[..|lines| - 1], lines[|lines| - 1];
      places := DataLinesExactly(front);
      PlacesSnoc(front, places, last);
      AreDataSnoc(front, places, DataLines(front), last);
      DataLinesSnoc(front, last);
      assert lines == front + [last];
      if "data:" <= last {
        places := places + [|front|];
      }
    }
  }

  /** The data of an event: of all lines that begin with "data:", in order, what follows without its leading
      blanks, joined by line breaks; other lines do not count. */
  lemma EventDataExactly(lines: seq<string>) returns (places: seq<nat>, data: seq<string>)
    requires lines != [] && forall i | 0 <= i < |lines| :: '\n' !in lines[i]
    ensures ArePlaces(lines, places) && AreData(lines, places, data)
    ensures EventData(Join(lines)) == Join(data)
  {
    LinesOfJoin(lines);
    places := DataLinesExactly(lines);
    data := DataLines(lines);
  }

  method ParseEventBlock(block: string) returns (data: string)
    ensures data == EventData(block)
  {
    var lines := Lines(block);
    var dataLines: seq<string> := [];
    for i := 0 to |lines|
      invariant dataLines == DataLines(lines[..i])
    {
      var line := lines[i];
      assert lines[..i + 1][..i] == lines[..i];
      if DATA <= line {
        dataLines := dataLines + [TrimStart(line[5..])];
      }
    }
    assert lines[..|lines|] == lines;
    data := Join(dataLines);
  }

  // ---------- collecting ----------

  /** The first element of an array, or the entry "0" of an object. */
  function First(v: Option<Value>): Option<Value> {
    match v
    case Some(Arr(items)) => if items != [] then Some(items[0]) else None
    case Some(Obj(fields)) => Get(fields, "0")
    case _ => None
  }

  function At(v: Option<Value>, key: string): Option<Value> {
    match v
    case Some(Obj(fields)) => Get(fields, key)
    case _ => None
  }

  /** The text a payload adds to the assistant's message. */
  function DeltaContent(payload: Value): string {
    match At(At(First(At(Some(payload), "choices")), "delta"), "content")
    case Some(Str(text)) => text
    case _ => ""
  }

  /** `Failed` stands for the exception that JSON.parse throws. */
  datatype Client = Client(rawFrames: seq<string>, content: string) | Failed

  function OnData(c: Client, data: string): Client
    requires c.Client?
  {
    if data == "" then c
    else if data == "[DONE]" then c.(rawFrames := c.rawFrames + ["data: " + data])
    else match Parse(data)
      case None => Failed
      case Some(payload) =>
        Client(c.rawFrames + ["data: " + data], c.content + DeltaContent(payload))
  }

  function OnBlocks(c: Client, blocks: seq<string>): Client
    decreases |blocks|
  {
    if blocks == [] || c.Failed? then c
    else OnBlocks(OnData(c, EventData(blocks[0])), blocks[1..])
  }

  lemma {:induction false} OnBlocksOfAppend(c: Client, a: seq<string>, b: seq<string>)
    ensures OnBlocks(c, a + b) == OnBlocks(OnBlocks(c, a), b)
    decreases |a|
  {
    if a == [] {
      assert a + b == b;
    } else if c.Client? {
      assert (a + b)[0] == a[0] && (a + b)[1..] == a[1..] + b;
      OnBlocksOfAppend(OnData(c, EventData(a[0])), a[1..], b);
    }
  }

  /** The payloads of the blocks that have one, in order. */
  function Payloads(blocks: seq<string>): seq<string> {
    if blocks == [] then []
    else (if EventData(blocks[0]) == "" then [] else [EventData(blocks[0])]) + Payloads(blocks[1..])
  }

  predicate IsUnreadable(payload: string) {
    payload != "[DONE]" && Parse(payload).None?
  }

  /** What the client has taken of a list of payloads, from the state `c` on. */
  ghost predicate HasTaken(c: Client, c': Client, payloads: seq<string>) {
    && (c'.Failed? <==> exists i :: 0 <= i < |payloads| && IsUnreadable(payloads[i]))
    && (c.Client? && c'.Client? ==>
          && |c'.rawFrames| == |c.rawFrames| + |payloads| && c.rawFrames <= c'.rawFrames
          && (forall i | 0 <= i < |payloads| :: c'.rawFrames[|c.rawFrames| + i] == "data: " + payloads[i])
          && c'.content == c.content + Said(payloads))
  }

  lemma NothingTaken(c: Client)
    requires c.Client?
    ensures HasTaken(c, c, [])
  {
    assert c.content + "" == c.content;
  }

  lemma OneMoreTaken(c: Client, data: string, c': Client, rest: seq<string>)
    requires c.Client? && data != "" && OnData(c, data).Client? && HasTaken(OnData(c, data), c', rest)
    ensures HasTaken(c, c', [data] + rest)
  {
    hide Parse, DeltaContent;
    var next, all := OnData(c, data), [data] + rest;
    assert all[0] == data && all[1..] == rest && forall i | 0 <= i < |rest| :: all[i + 1] == rest[i];
    var said := if data == "[DONE]" then "" else DeltaContent(Parse(data).value);
    assert (c.content + said) + Said(rest) == c.content + (said + Said(rest));
    assert c.content + "" == c.content;
    assert next.content == c.content + said && Said(all) == said + Said(rest);
    assert !IsUnreadable(data);
    if c'.Client? {
      assert next.rawFrames[|c.rawFrames|] == "data: " + data;
      assert c.rawFrames <= next.rawFrames <= c'.rawFrames;
    } else {
      var i :| 0 <= i < |rest| && IsUnreadable(rest[i]);
      assert IsUnreadable(all[i + 1]);
    }
  }

  /** The client fails exactly if some payload is neither the end marker nor JSON; else it has listed every payload,
      in order, and its text has grown by the contents of those that are JSON. */
  lemma {:induction false} ClientExactly(c: Client, blocks: seq<string>)
    requires c.Client?
    ensures HasTaken(c, OnBlocks(c, blocks), Payloads(blocks))
    decreases |blocks|
  {
    hide Parse, EventData, DeltaContent, HasTaken, Said;
    if blocks == [] {
      NothingTaken(c);
    } else {
      var data, rest := EventData(blocks[0]), Payloads(blocks[1..]);
      var next := OnData(c, data);
      if data == "" {
        ClientExactly(c, blocks[1..]);
        assert Payloads(blocks) == rest;
      } else if next.Client? {
        ClientExactly(next, blocks[1..]);
        OneMoreTaken(c, data, OnBlocks(next, blocks[1..]), rest);
      } else {
        FailsAtOnce(c, data, rest);
      }
    }
  }

  lemma FailsAtOnce(c: Client, data: string, rest: seq<string>)
    requires c.Client? && OnData(c, data).Failed?
    ensures HasTaken(c, Failed, [data] + rest)
  {
    assert ([data] + rest)[0] == data && IsUnreadable(data);
  }

  /** The texts that readable payloads add. */
  function Said(payloads: seq<string>): string {
    if payloads == [] then ""
    else
      (if payloads[0] == "[DONE]" || Parse(payloads[0]).None? then "" else DeltaContent(Parse(payloads[0]).value))
      + Said(payloads[1..])
  }

  function Concat(parts: seq<string>): string {
    if parts == [] then "" else Concat(parts[..|parts| - 1]) + parts[|parts| - 1]
  }

  const START := Client([], "")

  /** What the client makes of a whole response text. */
  function ClientOf(text: string): Client {
    OnBlocks(START, Blocks(text).0)
  }

  /** The read loop. However the text is cut into chunks, the outcome is that of the whole text. */
  method RunStreamingCompletion(chunks: seq<string>) returns (c: Client)
    ensures c == ClientOf(Concat(chunks))
  {
    c := START;
    var buffer := "";
    var n := 0;
    while n < |chunks|
      invariant n <= |chunks| && c.Client?
      invariant c == ClientOf(Concat(chunks[..n])) && buffer == Blocks(Concat(chunks[..n])).1
    {
      assert chunks[..n + 1][..n] == chunks[..n];
      ghost var seen := Concat(chunks[..n]);
      BlocksOfAppend(seen, chunks[n]);
      buffer := buffer + chunks[n];
      n := n + 1;
      c, buffer := DrainBlocks(c, buffer);
      OnBlocksOfAppend(START, Blocks(seen).0, Blocks(Blocks(seen).1 + chunks[n - 1]).0);
      if c.Failed? {
        FailureIsFinal(chunks, n);
        return;
      }
    }
    assert chunks[..n] == chunks;
  }

  /** The inner loop: it takes every complete block off the buffer, and stops at an exception. */
  method DrainBlocks(start: Client, text: string) returns (c: Client, buffer: string)
    requires start.Client?
    ensures c == OnBlocks(start, Blocks(text).0)
    ensures c.Client? ==> buffer == Blocks(text).1
  {
    c, buffer := start, text;
    var boundary := Boundary(buffer);
    while boundary.Some?
      invariant c.Client? && boundary == Boundary(buffer)
      invariant OnBlocks(start, Blocks(text).0) == OnBlocks(c, Blocks(buffer).0)
      invariant Blocks(text).1 == Blocks(buffer).1
      decreases |buffer|
    {
      var i := boundary.value;
      var block := buffer[..i];
      ghost var more := Blocks(buffer[i + 2..]);
      assert Blocks(buffer).0 == [block] + more.0 && ([block] + more.0)[1..] == more.0;
      buffer := buffer[i + 2..];
      var data := ParseEventBlock(block);
      if data != "" {
        if data != "[DONE]" {
          var payload := Parse(data);
          if payload.None? {
            c := Failed;
            return;
          }
          c := c.(rawFrames := c.rawFrames + ["data: " + data], content := c.content + DeltaContent(payload.value));
        } else {
          c := c.(rawFrames := c.rawFrames + ["data: " + data]);
        }
      }
      boundary := Boundary(buffer);
    }
  }

  lemma {:induction false} FailureIsFinal(chunks: seq<string>, n: nat)
    requires n <= |chunks| && ClientOf(Concat(chunks[..n])).Failed?
    ensures ClientOf(Concat(chunks)).Failed?
    decreases |chunks| - n
  {
    if n == |chunks| {
      assert chunks[..n] == chunks;
    } else {
      assert chunks[..n + 1][..n] == chunks[..n];
      BlocksOfAppend(Concat(chunks[..n]), chunks[n]);
      OnBlocksOfAppend(START, Blocks(Concat(chunks[..n])).0, Blocks(Blocks(Concat(chunks[..n])).1 + chunks[n]).0);
      FailureIsFinal(chunks, n + 1);
    }
  }

  // ---------- what the client makes of the server's frames ----------

  lemma {:induction false} OneLine(s: string)
    requires NoLineBreak(s)
    ensures Lines(s) == [s]
  {
    if s != [] {
      OneLine(s[1..]);
      assert [s[0]] + s[1..] == s;
    }
  }

  /** A payload that is one line and starts visibly comes out of its block unchanged. */
  lemma DataOfBlock(payload: string)
    requires NoLineBreak(payload) && payload != [] && !IsScriptBlank(payload[0])
    ensures EventData("data: " + payload) == payload
  {
    var block := "data: " + payload;
    OneLine(block);
    assert DATA <= block;
    assert block[5..] == " " + payload;
    assert (" " + payload)[1..] == payload;
    assert TrimStart(block[5..]) == payload;
    assert DataLines([block][..0]) == [];
    assert DataLines([block]) == [payload];
  }

  /** The text a frame adds. */
  function FrameContent(f: Frame): string {
    if f.Done? then "" else DeltaContent(FrameValue(f))
  }

  function Contents(frames: seq<Frame>): string {
    if frames == [] then "" else FrameContent(frames[0]) + Contents(frames[1..])
  }

  function RawFrames(frames: seq<Frame>): seq<string> {
    if frames == [] then [] else ["data: " + Payload(frames[0])] + RawFrames(frames[1..])
  }

  lemma PayloadStart(f: Frame)
    ensures Payload(f) != [] && !IsScriptBlank(Payload(f)[0])
    ensures f.Done? <==> Payload(f) == "[DONE]"
  {
    if !f.Done? {
      ParseOfPrint(FrameValue(f));
      DoneIsNotJson();
      PrintedStartIsVisible(FrameValue(f));
    }
  }

  lemma PrintedStartIsVisible(v: Value)
    ensures Print(v) != [] && !IsScriptBlank(Print(v)[0])
  {
    if v.Num? { ToStringStart(v.n); }
    if v.Dec? { ToStringStart(v.mantissa); }
  }

  lemma DoneIsNotJson()
    ensures Parse("[DONE]") == None
  {
    var text := "[DONE]";
    assert text[1..] == "DONE]";
    assert ReadValue("DONE]") == None;
    assert ReadItems("DONE]") == None;
  }

  lemma OnFrame(c: Client, f: Frame)
    requires c.Client?
    ensures OnData(c, EventData("data: " + Payload(f))) ==
            Client(c.rawFrames + ["data: " + Payload(f)], c.content + FrameContent(f))
  {
    PayloadIsOneLine(f);
    PayloadStart(f);
    DataOfBlock(Payload(f));
    if !f.Done? { ParseOfPrint(FrameValue(f)); }
  }

  lemma BlocksOfFrame(f: Frame, rest: string)
    ensures Blocks(FrameText(f) + rest) == (["data: " + Payload(f)] + Blocks(rest).0, Blocks(rest).1)
  {
    PayloadIsOneLine(f);
    var block := "data: " + Payload(f);
    var text := FrameText(f) + rest;
    assert text == block + ("\n\n" + rest);
    assert NoLineBreak(block);
    assert forall i | 0 <= i < |block| :: text[i] == block[i] && block[i] in block;
    BoundaryIs(text, |block|);
    assert text[..|block|] == block;
    assert text[|block| + 2..] == rest;
  }

  /** Reading the wire text of any frames recovers every payload in order and joins their contents. */
  lemma {:induction false} ClientOfWireFrom(c: Client, frames: seq<Frame>)
    requires c.Client?
    ensures Blocks(Wire(frames)).1 == ""
    ensures OnBlocks(c, Blocks(Wire(frames)).0) ==
            Client(c.rawFrames + RawFrames(frames), c.content + Contents(frames))
    decreases |frames|
  {
    if frames == [] {
      assert c.rawFrames + [] == c.rawFrames && c.content + "" == c.content;
    } else {
      var f := frames[0];
      var c' := Client(c.rawFrames + ["data: " + Payload(f)], c.content + FrameContent(f));
      BlocksOfFrame(f, Wire(frames[1..]));
      OnFrame(c, f);
      var more := Blocks(Wire(frames[1..])).0;
      var blocks := ["data: " + Payload(f)] + more;
      assert blocks[0] == "data: " + Payload(f) && blocks[1..] == more;
      ClientOfWireFrom(c', frames[1..]);
      RegroupFrames(c, f, frames);
    }
  }

  lemma RegroupFrames(c: Client, f: Frame, frames: seq<Frame>)
    requires c.Client? && frames != [] && f == frames[0]
    ensures (c.rawFrames + ["data: " + Payload(f)]) + RawFrames(frames[1..]) == c.rawFrames + RawFrames(frames)
    ensures (c.content + FrameContent(f)) + Contents(frames[1..]) == c.content + Contents(frames)
  {
    assert c.content + (FrameContent(f) + Contents(frames[1..])) ==
           (c.content + FrameContent(f)) + Contents(frames[1..]);
  }

  /** For every list of frames and every way of cutting their text into chunks. */
  lemma ClientOfWire(frames: seq<Frame>, chunks: seq<string>)
    requires Concat(chunks) == Wire(frames)
    ensures ClientOf(Concat(chunks)) == Client(RawFrames(frames), Contents(frames))
  {
    ClientOfWireFrom(START, frames);
    assert [] + RawFrames(frames) == RawFrames(frames) && "" + Contents(frames) == Contents(frames);
  }

  /** The content of a completion chunk is the token it was made from. */
  lemma ChunkContent(meta: Metadata, content: Option<string>, role: bool, finish: Option<string>)
    ensures FrameContent(Chunk(meta, content, role, finish)) ==
            if content.Some? then content.value else ""
  {
    var choice := ChoiceValue(content, role, finish);
    var delta := Obj(RoleFields(role) + ContentFields(content));
    ReadTopLevel(meta, Arr([choice]));
    ChoiceLookups(content, role, finish);
    GetDelta(content, role);
    hide ChunkFields, ChoiceValue, RoleFields, ContentFields, Lookup, StringAt;
    DeltaPath(Obj(ChunkFields(meta, Arr([choice]))), choice, delta);
  }

  /** The way the client takes to the content: the first choice, its delta, and the string under "content" there; any
      other payload adds nothing. */
  lemma ContentIsOfTheFirstChoice(payload: Value, choices: seq<Value>)
    requires Lookup(payload, "choices") == Some(Arr(choices))
    ensures DeltaContent(payload) ==
      if choices == [] || Lookup(choices[0], "delta").None? then ""
      else match Lookup(Lookup(choices[0], "delta").value, "content") case Some(Str(text)) => text case _ => ""
  {
    hide Get;
  }

  lemma DeltaPath(payload: Value, choice: Value, delta: Value)
    requires Lookup(payload, "choices") == Some(Arr([choice])) && Lookup(choice, "delta") == Some(delta)
    ensures DeltaContent(payload) == match Lookup(delta, "content") case Some(Str(text)) => text case _ => ""
  {
    assert At(Some(payload), "choices") == Some(Arr([choice]));
    assert First(Some(Arr([choice]))) == Some(choice);
    assert At(Some(choice), "delta") == Some(delta);
    hide Lookup;
  }

  lemma GetDelta(content: Option<string>, role: bool)
    ensures Lookup(Obj(RoleFields(role) + ContentFields(content)), "content") ==
            match content case None => None case Some(text) => Some(Str(text))
  {
    match content
    case Some(text) => GetSnoc(RoleFields(role), Field(CONTENT, Str(text)), CONTENT);
    case None =>
      assert RoleFields(role) + ContentFields(None) == RoleFields(role);
      if role {
        GetSnoc([], Field(ROLE, Str(ASSISTANT)), CONTENT);
        assert [] + [Field(ROLE, Str(ASSISTANT))] == RoleFields(role);
      }
  }
}
