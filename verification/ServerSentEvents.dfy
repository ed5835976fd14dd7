/** The data of the first event in a server-sent event stream (services/api/internal/
    mcp/client.go, extractSSEData). */
module ServerSentEvents {
  import opened Wrappers
  import opened Strings
  import opened TextLines

  /** bufio.ScanLines drops one carriage return at the end of a line. */
  function DropReturn(line: string): string {
    if line != "" && line[|line| - 1] == '\r' then line[..|line| - 1] else line
  }

  /** The scanner's lines: what follows the last newline is one more, unless empty. */
  function Scanned(text: string): seq<string> { Returned(AllOf(Cut(text))) }

  function AllOf(cut: Lines): seq<string> { cut.full + if cut.rest == "" then [] else [cut.rest] }

  lemma AllOfConcat(a: seq<string>, cut: Lines)
    ensures AllOf(Lines(a + cut.full, cut.rest)) == a + AllOf(cut)
  {
  }

  /** A line this long, its newline not counted, does not fit the scanner's buffer. */
  const MAX_LINE: nat := 0x10_0000

  /** Scanning ends at the first line that is too long. */
  function Returned(lines: seq<string>): seq<string> {
    if lines == [] || |lines[0]| >= MAX_LINE then [] else [DropReturn(lines[0])] + Returned(lines[1..])
  }

  predicate IsData(line: string) { StartsWith(line, "data:") }

  /** The value of a data line: one space after the colon does not belong to it. */
  function DataOf(line: string): string
    requires IsData(line)
  {
    if |line| > 5 && line[5] == ' ' then line[6..] else line[5..]
  }

  function JoinLines(lines: seq<string>): string {
    if lines == [] then "" else if |lines| == 1 then lines[0] else lines[0] + "\n" + JoinLines(lines[1..])
  }

  /** The data lines up to the first blank line behind one. */
  function Collect(lines: seq<string>, data: seq<string>): seq<string>
    decreases |lines|
  {
    if lines == [] then data
    else if IsData(lines[0]) then Collect(lines[1..], data + [DataOf(lines[0])])
    else if lines[0] == "" && data != [] then data
    else Collect(lines[1..], data)
  }

  function Extract(text: string): Option<string> {
    var data := Collect(Scanned(text), []);
    if data == [] then None else Some(JoinLines(data))
  }

  method ExtractSSEData(text: string) returns (payload: Option<string>)
    ensures payload == Extract(text)
  {
    var lines, data := Scanned(text), [];
    assert lines[0..] == lines;
    for k := 0 to |lines|
      invariant Collect(lines[k..], data) == Collect(lines, [])
    {
      assert lines[k..][1..] == lines[k + 1..];
      if IsData(lines[k]) {
        data := data + [DataOf(lines[k])];
      } else if lines[k] == "" && data != [] {
        return Some(JoinLines(data));
      }
    }
    assert lines[|lines|..] == [];
    payload := if data == [] then None else Some(JoinLines(data));
  }

  // -------------------------------------------------------------- round trip

  /** A line of the payload, framed with or without the space, or any other line; either
      may end in a carriage return before the newline. */
  datatype Item = Data(value: string, spaced: bool, cr: bool) | Noise(line: string, cr: bool)

  function Body(item: Item): string {
    match item
    case Data(value, spaced, _) => "data:" + (if spaced then " " else "") + value
    case Noise(line, _) => line
  }

  function Frame(item: Item): string { Body(item) + if item.cr then "\r" else "" }

  function Frames(items: seq<Item>): seq<string> {
    if items == [] then [] else [Frame(items[0])] + Frames(items[1..])
  }

  function Bodies(items: seq<Item>): seq<string> {
    if items == [] then [] else [Body(items[0])] + Bodies(items[1..])
  }

  function Values(items: seq<Item>): seq<string> {
    if items == [] then []
    else (if items[0].Data? then [items[0].value] else []) + Values(items[1..])
  }

  predicate EndsInReturn(s: string) { s != "" && s[|s| - 1] == '\r' }

  /** Lines hold no newline, end in no carriage return but the one before the newline and
      are not too long; the space is left out only where the value does not start with
      one; other lines are neither blank nor data lines. */
  predicate Framable(item: Item) {
    && '\n' !in Body(item) && (item.cr || !EndsInReturn(Body(item))) && |Frame(item)| < 0x10_0000
    && match item
       case Data(value, spaced, _) => spaced || value == "" || value[0] != ' '
       case Noise(line, _) => line != "" && !(|line| >= 5 && line[..5] == "data:")
  }

  predicate AllFramable(items: seq<Item>) {
    items != [] ==> Framable(items[0]) && AllFramable(items[1..])
  }

  lemma FrameIsLine(item: Item)
    requires Framable(item)
    ensures '\n' !in Frame(item) && DropReturn(Frame(item)) == Body(item)
    ensures item.Data? ==> IsData(Body(item)) && DataOf(Body(item)) == item.value
    ensures item.Noise? ==> !IsData(Body(item)) && Body(item) != ""
  {
    if item.cr { assert Frame(item)[..|Frame(item)| - 1] == Body(item); }
  }

  lemma {:induction false} FramesAreLines(items: seq<Item>)
    requires AllFramable(items)
    ensures Unbroken(Frames(items)) && Short(Frames(items)) && Returned(Frames(items)) == Bodies(items)
  {
    if items != [] {
      FrameIsLine(items[0]);
      FramesAreLines(items[1..]);
    }
  }

  lemma {:induction false} CollectOne(item: Item, rest: seq<string>, data: seq<string>)
    requires Framable(item)
    ensures Collect([Body(item)] + rest, data) == Collect(rest, if item.Data? then data + [item.value] else data)
  {
    FrameIsLine(item);
    assert ([Body(item)] + rest)[1..] == rest;
  }

  lemma {:induction false} BodiesCons(items: seq<Item>, after: seq<string>)
    requires items != []
    ensures Bodies(items) + after == [Body(items[0])] + (Bodies(items[1..]) + after)
  {
  }

  lemma {:induction false} ValuesCons(items: seq<Item>, data: seq<string>, next: seq<string>)
    requires items != [] && next == if items[0].Data? then data + [items[0].value] else data
    ensures next + Values(items[1..]) == data + Values(items)
  {
  }

  lemma {:induction false} CollectFrames(items: seq<Item>, data: seq<string>, after: seq<string>)
    requires AllFramable(items)
    ensures Collect(Bodies(items) + after, data) == Collect(after, data + Values(items))
    decreases |items|
  {
    if items == [] {
      assert Bodies(items) + after == after && data + Values(items) == data;
    } else {
      var next := if items[0].Data? then data + [items[0].value] else data;
      BodiesCons(items, after);
      CollectOne(items[0], Bodies(items[1..]) + after, data);
      CollectFrames(items[1..], next, after);
      ValuesCons(items, data, next);
    }
  }

  predicate Short(lines: seq<string>) { lines != [] ==> |lines[0]| < 0x10_0000 && Short(lines[1..]) }

  lemma {:induction false} ReturnedConcat(a: seq<string>, b: seq<string>)
    requires Short(a)
    ensures Returned(a + b) == Returned(a) + Returned(b)
  {
    if a == [] { assert a + b == b; } else { assert (a + b)[1..] == a[1..] + b; ReturnedConcat(a[1..], b); }
  }

  /** Unbroken short lines, whatever follows them. */
  lemma {:induction false} ScannedLines(lines: seq<string>, more: string)
    requires Unbroken(lines) && Short(lines)
    ensures Scanned(Written(lines) + more) == Returned(lines) + Scanned(more)
  {
    CutWritten(lines, more);
    AllOfConcat(lines, Cut(more));
    ReturnedConcat(lines, AllOf(Cut(more)));
  }

  /** The lines of a framed event, whatever follows it. */
  lemma {:induction false} ScannedFrames(items: seq<Item>, more: string)
    requires AllFramable(items)
    ensures Scanned(Written(Frames(items)) + more) == Bodies(items) + Scanned(more)
  {
    FramesAreLines(items);
    ScannedLines(Frames(items), more);
  }

  function BlankLine(cr: bool): string { if cr then "\r\n" else "\n" }

  lemma ScannedBlank(cr: bool, more: string)
    ensures Scanned(BlankLine(cr) + more) == [""] + Scanned(more)
  {
    var line := if cr then "\r" else "";
    assert [line][1..] == [] && Written([line]) == BlankLine(cr);
    assert Unbroken([line]) && Short([line]);
    ScannedLines([line], more);
    assert Returned([line]) == [""];
  }

  lemma {:induction false} CollectedPayload(text: string, items: seq<Item>, after: seq<string>)
    requires AllFramable(items)
    requires Values(items) != [] && Scanned(text) == Bodies(items) + after && (after == [] || after[0] == "")
    ensures Extract(text) == Some(JoinLines(Values(items)))
  {
    CollectFrames(items, [], after);
    assert [] + Values(items) == Values(items);
  }

  /** What was framed comes out, exactly one leading space removed per line, whatever
      other lines stand between and whatever follows the blank line. */
  lemma {:induction false} FramedPayloadComesOut(items: seq<Item>, cr: bool, more: string)
    requires AllFramable(items)
    requires Values(items) != []
    ensures Extract(Written(Frames(items)) + (BlankLine(cr) + more)) == Some(JoinLines(Values(items)))
  {
    ScannedFrames(items, BlankLine(cr) + more);
    ScannedBlank(cr, more);
    CollectedPayload(Written(Frames(items)) + (BlankLine(cr) + more), items, [""] + Scanned(more));
  }

  lemma {:induction false} AppendItem(items: seq<Item>, last: Item)
    requires AllFramable(items) && Framable(last)
    ensures AllFramable(items + [last]) && Bodies(items + [last]) == Bodies(items) + [Body(last)]
  {
    if items == [] {
      assert [] + [last] == [last] && [last][1..] == [];
    } else {
      assert (items + [last])[1..] == items[1..] + [last];
      AppendItem(items[1..], last);
    }
  }

  lemma ScannedLast(line: string)
    requires '\n' !in line && 0 < |line| < 0x10_0000
    ensures Scanned(line) == [DropReturn(line)]
  {
    CutUnbroken(line);
    assert [] + [line] == [line] && [line][1..] == [];
    assert Returned([line]) == [DropReturn(line)] + Returned([line][1..]);
  }

  /** The blank line may be missing at the end of the stream, and the newline before it. */
  lemma {:induction false} UnterminatedPayloadComesOut(items: seq<Item>, last: Item)
    requires AllFramable(items) && Framable(last) && Values(items + [last]) != []
    ensures Extract(Written(Frames(items)) + Frame(last)) == Some(JoinLines(Values(items + [last])))
  {
    ScannedFrames(items, Frame(last));
    FrameIsLine(last);
    ScannedLast(Frame(last));
    AppendItem(items, last);
    assert Bodies(items) + [Body(last)] == Bodies(items + [last]) + [];
    CollectedPayload(Written(Frames(items)) + Frame(last), items + [last], []);
  }

  lemma {:induction false} CollectIgnores(lines: seq<string>, after: seq<string>)
    requires Short(lines) && forall i :: 0 <= i < |lines| ==> !IsData(lines[i])
    ensures Collect(Returned(lines) + after, []) == Collect(after, [])
  {
    if lines == [] {
      assert Returned(lines) + after == after;
    } else {
      var first, rest := DropReturn(lines[0]), Returned(lines[1..]);
      assert !IsData(lines[0]);
      assert Returned(lines) + after == [first] + (rest + after);
      assert ([first] + (rest + after))[1..] == rest + after;
      CollectIgnores(lines[1..], after);
    }
  }

  /** Lines before the first data line do not matter, blank ones included. */
  lemma {:induction false} OtherLinesAreSkipped(lines: seq<string>, more: string)
    requires Unbroken(lines) && Short(lines) && forall i :: 0 <= i < |lines| ==> !IsData(lines[i])
    ensures Extract(Written(lines) + more) == Extract(more)
  {
    ScannedLines(lines, more);
    CollectIgnores(lines, Scanned(more));
  }

  /** Without a data line there is no payload. */
  lemma {:induction false} NoDataNoPayload(lines: seq<string>)
    requires Unbroken(lines) && Short(lines) && forall i :: 0 <= i < |lines| ==> !IsData(lines[i])
    ensures Extract(Written(lines)) == None
  {
    NothingSent();
    var text := Written(lines);
    assert text + "" == text;
    OtherLinesAreSkipped(lines, "");
  }

  lemma NothingSent()
    ensures Extract("") == None
  {
    assert Scanned("") == [];
  }

  /** A line of a mebibyte or more ends the reading: what came before it counts. */
  lemma {:induction false} LongLineEnds(items: seq<Item>, long: string, more: string)
    requires AllFramable(items) && '\n' !in long && |long| >= 0x10_0000
    ensures Extract(Written(Frames(items)) + (long + "\n" + more)) == if Values(items) == [] then None else Some(JoinLines(Values(items)))
  {
    var rest := long + "\n" + more;
    ScannedFrames(items, rest);
    CutLine(long, more);
    AllOfConcat([long], Cut(more));
    assert AllOf(Cut(rest)) == [long] + AllOf(Cut(more));
    assert Scanned(rest) == [];
    CollectFrames(items, [], []);
    assert [] + Values(items) == Values(items);
  }

  /** Round trip: any payload, sent line by line, is what the reader returns. */
  lemma {:induction false} PayloadRoundTrip(payload: string, items: seq<Item>, cr: bool, more: string)
    requires AllFramable(items)
    requires Values(items) == Cut(payload).full + [Cut(payload).rest]
    ensures Extract(Written(Frames(items)) + (BlankLine(cr) + more)) == Some(payload)
  {
    FramedPayloadComesOut(items, cr, more);
    JoinOfCut(payload);
  }

  /** Any payload is the join of its lines. */
  lemma {:induction false} JoinOfCut(payload: string)
    ensures JoinLines(Cut(payload).full + [Cut(payload).rest]) == payload
  {
    if payload != "" {
      var init, c := payload[..|payload| - 1], payload[|payload| - 1];
      JoinOfCut(init);
      assert init + [c] == payload;
      var cut := Cut(init);
      if c == '\n' {
        JoinSnoc(cut.full + [cut.rest], "");
      } else {
        JoinLast(cut.full, cut.rest, [c]);
      }
    }
  }

  lemma {:induction false} JoinSnoc(lines: seq<string>, last: string)
    requires lines != []
    ensures JoinLines(lines + [last]) == JoinLines(lines) + "\n" + last
    decreases |lines|
  {
    assert (lines + [last])[1..] == lines[1..] + [last];
    if |lines| > 1 { JoinSnoc(lines[1..], last); }
  }

  lemma {:induction false} JoinLast(lines: seq<string>, last: string, more: string)
    ensures JoinLines(lines + [last + more]) == JoinLines(lines + [last]) + more
  {
    if lines != [] {
      JoinSnoc(lines, last + more);
      JoinSnoc(lines, last);
    }
  }
}
