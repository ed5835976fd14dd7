/** The two chat panels that read a reply as it streams in (apps/web/src/components/
    NexusDraftPanel.tsx and apps/web/src/app/nexus-ai/page.tsx). */
module StreamReaders {
  import opened Wrappers
  import opened Strings
  import opened TextLines

  // ------------------------------------------------------------------- lines

  /** White space for String.prototype.trim. */
  predicate White(c: char) {
    || '\t' <= c <= '\r' || c == ' ' || c == '\U{A0}' || c == '\U{1680}' || '\U{2000}' <= c <= '\U{200A}'
    || c == '\U{2028}' || c == '\U{2029}' || c == '\U{202F}' || c == '\U{205F}' || c == '\U{3000}' || c == '\U{FEFF}'
  }

  function TrimStart(s: string): string { if s != "" && White(s[0]) then TrimStart(s[1..]) else s }
  function TrimEnd(s: string): string { if s != "" && White(s[|s| - 1]) then TrimEnd(s[..|s| - 1]) else s }
  function Trim(s: string): string { TrimEnd(TrimStart(s)) }

  function NonBlank(payload: string): Option<string> { if payload == "" then None else Some(payload) }

  /** The draft panel trims the line first. */
  function PanelPayload(line: string): Option<string> {
    var trimmed := Trim(line);
    if StartsWith(trimmed, "data:") then NonBlank(Trim(trimmed[5..])) else None
  }

  /** The chat page wants the prefix, space included, at the start of the line. */
  function PagePayload(line: string): Option<string> {
    if StartsWith(line, "data: ") then NonBlank(Trim(line[6..])) else None
  }

  // ------------------------------------------------------------------ events

  datatype Event = Delta(content: string) | ToolStarted(tool: string, name: string) | ToolCompleted(tool: string, name: string)
                 | Draft(draft: string) | Failed(message: string) | Other

  /** JSON.parse; a payload that is not JSON is skipped. */
  type Parser = string -> Option<Event>

  datatype Panel = Panel(text: string, activity: string, drafts: seq<string>, error: string)

  function PanelEvent(v: Panel, e: Event): Panel {
    match e
    case Delta(content) => v.(text := v.text + content)
    case ToolStarted(_, name) => v.(activity := name)
    case ToolCompleted(_, name) => v.(activity := name)
    case Draft(draft) => v.(drafts := v.drafts + [draft])
    case Failed(message) => v.(error := message)
    case Other => v
  }

  datatype Card = Card(completed: bool, tool: string, name: string)
  datatype Page = Page(text: string, cards: seq<Card>, pending: map<string, nat>)

  const SORRY: string := "Sorry, something went wrong: "

  /** A completed tool takes over the card it was started on, or gets its own. */
  function PageEvent(v: Page, e: Event): Page {
    match e
    case Delta(content) => v.(text := v.text + content)
    case ToolStarted(tool, name) =>
      v.(cards := v.cards + [Card(false, tool, name)], pending := v.pending[tool := |v.cards|])
    case ToolCompleted(tool, name) =>
      if tool in v.pending && v.pending[tool] < |v.cards|
      then v.(cards := v.cards[v.pending[tool] := Card(true, tool, name)], pending := v.pending - {tool})
      else v.(cards := v.cards + [Card(true, tool, name)], pending := v.pending - {tool})
    case Failed(message) => if v.text == "" then v.(text := SORRY + message) else v
    case _ => v
  }

  /** What a reader does with one line. */
  type Step<!V> = (V, string) -> V

  function EventIn(read: string -> Option<string>, parse: Parser, line: string): Option<Event> {
    var payload := read(line);
    if payload.None? then None else parse(payload.value)
  }

  function LineStep<V>(read: string -> Option<string>, parse: Parser, react: (V, Event) -> V): Step<V> {
    (v: V, line: string) => var event := EventIn(read, parse, line); if event.None? then v else react(v, event.value)
  }

  function PanelStep(parse: Parser): Step<Panel> { LineStep(PanelPayload, parse, PanelEvent) }
  function PageStep(parse: Parser): Step<Page> { LineStep(PagePayload, parse, PageEvent) }

  /** All lines of a text that is there as a whole. */
  function AllLines<V>(step: Step<V>, v: V, lines: seq<string>): V {
    if lines == [] then v else step(AllLines(step, v, lines[..|lines| - 1]), lines[|lines| - 1])
  }

  // ----------------------------------------------------------------- programs

  /** The read loop: append the piece, take the complete lines, keep the rest. The view
      at the end is the one the whole text gives, however it was cut up. */
  method ReadStream<V>(step: Step<V>, start: V, pieces: seq<string>) returns (v: V, buffer: string)
    ensures v == AllLines(step, start, Cut(Concat(pieces)).full)
    ensures buffer == Cut(Concat(pieces)).rest
  {
    v, buffer := start, "";
    for k := 0 to |pieces|
      invariant v == AllLines(step, start, Cut(Concat(pieces[..k])).full)
      invariant buffer == Cut(Concat(pieces[..k])).rest
    {
      var cut := Cut(buffer + pieces[k]);
      ghost var before := Cut(Concat(pieces[..k])).full;
      NextPiece(pieces, k);
      v := Dispatch(step, v, cut.full, start, before);
      buffer := cut.rest;
    }
    assert pieces[..|pieces|] == pieces;
  }

  method Dispatch<V>(step: Step<V>, v: V, lines: seq<string>, ghost start: V, ghost before: seq<string>) returns (w: V)
    requires v == AllLines(step, start, before)
    ensures w == AllLines(step, start, before + lines)
  {
    w := v;
    assert before + lines[..0] == before;
    for i := 0 to |lines|
      invariant w == AllLines(step, start, before + lines[..i])
    {
      var so := before + lines[..i + 1];
      assert so[..|so| - 1] == before + lines[..i] && so[|so| - 1] == lines[i];
      w := step(w, lines[i]);
    }
    assert lines[..|lines|] == lines;
  }

  lemma NextPiece(pieces: seq<string>, k: nat)
    requires k < |pieces|
    ensures var so := Cut(Concat(pieces[..k])); var cut := Cut(so.rest + pieces[k]);
            Cut(Concat(pieces[..k + 1])) == Lines(so.full + cut.full, cut.rest)
  {
    assert pieces[..k + 1][..k] == pieces[..k];
    CutInPieces(Concat(pieces[..k]), pieces[k]);
  }

  // -------------------------------------------------------------- properties

  lemma {:induction false} TrimEndAfter(a: string, s: string)
    requires a != "" && !White(a[|a| - 1])
    ensures TrimEnd(a + s) == a + TrimEnd(s)
    decreases |s|
  {
    if s == "" {
      assert a + s == a;
    } else if White(s[|s| - 1]) {
      assert (a + s)[..|a + s| - 1] == a + s[..|s| - 1];
      TrimEndAfter(a, s[..|s| - 1]);
    }
  }

  lemma {:induction false} TrimEndTwice(s: string)
    ensures TrimEnd(TrimEnd(s)) == TrimEnd(s)
    decreases |s|
  {
    if s != "" && White(s[|s| - 1]) { TrimEndTwice(s[..|s| - 1]); }
  }

  lemma {:induction false} TrimStartOfWhite(s: string)
    requires TrimEnd(s) == ""
    ensures TrimStart(s) == ""
    decreases |s|
  {
    if s != "" {
      TrimEndHead(s);
      assert White(s[0]) && TrimEnd(s[1..]) == "";
      TrimStartOfWhite(s[1..]);
    }
  }

  /** Trimming the end leaves the first character alone unless everything goes. */
  lemma {:induction false} TrimEndHead(s: string)
    requires s != ""
    ensures TrimEnd(s) == if White(s[0]) && TrimEnd(s[1..]) == "" then "" else [s[0]] + TrimEnd(s[1..])
    decreases |s|
  {
    if White(s[|s| - 1]) {
      if |s| > 1 {
        TrimEndHead(s[..|s| - 1]);
        assert s[..|s| - 1][1..] == s[1..][..|s| - 2];
      }
    } else {
      assert s == [s[0]] + s[1..];
    }
  }

  /** The two ends can be trimmed in either order. */
  lemma {:induction false} TrimsCommute(s: string)
    ensures TrimStart(TrimEnd(s)) == TrimEnd(TrimStart(s))
    decreases |s|
  {
    if s != "" {
      TrimEndHead(s);
      if White(s[0]) {
        TrimsCommute(s[1..]);
        if TrimEnd(s[1..]) == "" { TrimStartOfWhite(s[1..]); }
        else { assert ([s[0]] + TrimEnd(s[1..]))[1..] == TrimEnd(s[1..]); }
      }
    }
  }

  /** Where the page sees a payload the panel sees the same one; a line the page passes
      over because of the prefix is the only difference between the two. */
  lemma ReadersAgree(line: string)
    ensures PagePayload(line) == if StartsWith(line, "data: ") then PanelPayload(line) else None
  {
    if StartsWith(line, "data: ") {
      var rest := line[5..];
      assert line == "data:" + rest && rest[0] == ' ';
      assert TrimStart(line) == line;
      TrimEndAfter("data:", rest);
      assert Trim(line)[5..] == TrimEnd(rest);
      assert rest[1..] == line[6..];
      assert TrimStart(rest) == TrimStart(line[6..]);
      TrimsCommute(rest);
      TrimEndTwice(TrimStart(rest));
    }
  }

  /** So the panel and the page read the same payloads exactly when every line the
      panel reads has the page's prefix. */
  lemma ReadersDiffer(line: string)
    ensures PagePayload(line) == PanelPayload(line) <==> StartsWith(line, "data: ") || PanelPayload(line).None?
  {
    ReadersAgree(line);
  }

  // --------------------------------------------------------- what a line holds

  /** White space and line ends of ECMAScript, by code point. */
  predicate Space(c: char) {
    var n := c as int;
    || 9 <= n <= 13 || n == 32 || n == 0xA0 || n == 0x1680 || 0x2000 <= n <= 0x200A
    || n == 0x2028 || n == 0x2029 || n == 0x202F || n == 0x205F || n == 0x3000 || n == 0xFEFF
  }

  predicate AllSpace(s: string) { forall i :: 0 <= i < |s| ==> Space(s[i]) }
  predicate Tight(s: string) { s != "" ==> !Space(s[0]) && !Space(s[|s| - 1]) }

  lemma {:induction false} TrimStartPad(pad: string, s: string)
    requires AllSpace(pad) && (s != "" ==> !Space(s[0]))
    ensures TrimStart(pad + s) == s
  {
    if pad == "" {
      assert pad + s == s;
    } else {
      assert (pad + s)[0] == pad[0] && (pad + s)[1..] == pad[1..] + s;
      TrimStartPad(pad[1..], s);
    }
  }

  lemma {:induction false} TrimEndPad(s: string, pad: string)
    requires AllSpace(pad) && (s != "" ==> !Space(s[|s| - 1]))
    ensures TrimEnd(s + pad) == s
    decreases |pad|
  {
    if pad == "" {
      assert s + pad == s;
    } else {
      var n := |pad| - 1;
      assert (s + pad)[|s| + n] == pad[n] && (s + pad)[..|s| + n] == s + pad[..n];
      TrimEndPad(s, pad[..n]);
    }
  }

  lemma TrimPads(before: string, s: string, after: string)
    requires AllSpace(before) && AllSpace(after) && Tight(s)
    ensures Trim(before + s + after) == s
  {
    if s == "" {
      TrimStartPad(before + s + after, "");
      assert before + s + after + "" == before + s + after;
    } else {
      assert before + s + after == before + (s + after);
      TrimStartPad(before, s + after);
      TrimEndPad(s, after);
    }
  }

  lemma PanelReads(before: string, between: string, payload: string, after: string)
    requires AllSpace(before) && AllSpace(between) && AllSpace(after) && Tight(payload)
    ensures PanelPayload(before + ("data:" + between + payload) + after) == if payload == "" then None else Some(payload)
  {
    if payload == "" {
      assert before + ("data:" + between + payload) + after == before + "data:" + (between + after);
      TrimPads(before, "data:", between + after);
    } else {
      var core := "data:" + between + payload;
      assert core[|core| - 1] == payload[|payload| - 1];
      TrimPads(before, core, after);
      assert core[5..] == between + payload + "";
      TrimPads(between, payload, "");
    }
  }

  /** Both readers get the payload of a line, without the white space around it; nothing
      is read from a line without a payload. The panel lets white space stand in front. */
  lemma ReadersRead(before: string, between: string, payload: string, after: string)
    requires AllSpace(before) && AllSpace(between) && AllSpace(after) && Tight(payload)
    ensures PanelPayload(before + ("data:" + between + payload) + after) == if payload == "" then None else Some(payload)
    ensures PagePayload("data: " + (between + payload + after)) == if payload == "" then None else Some(payload)
  {
    PanelReads(before, between, payload, after);
    TrimPads(between, payload, after);
    var rest := between + payload + after;
    assert ("data: " + rest)[6..] == rest;
  }

  /** A reader reacts to the event its line's payload holds, and to nothing else. */
  lemma ReadersReact(parse: Parser, panel: Panel, page: Page, before: string, between: string, payload: string, after: string)
    requires AllSpace(before) && AllSpace(between) && AllSpace(after) && Tight(payload)
    ensures PanelStep(parse)(panel, before + ("data:" + between + payload) + after)
         == if payload == "" || parse(payload).None? then panel else PanelEvent(panel, parse(payload).value)
    ensures PageStep(parse)(page, "data: " + (between + payload + after))
         == if payload == "" || parse(payload).None? then page else PageEvent(page, parse(payload).value)
  {
    ReadersRead(before, between, payload, after);
    var event := if payload == "" then None else parse(payload);
    assert EventIn(PanelPayload, parse, before + ("data:" + between + payload) + after) == event;
    assert EventIn(PagePayload, parse, "data: " + (between + payload + after)) == event;
  }

  /** A line that does not begin with the field name holds nothing for the panel. */
  lemma PanelIgnores(before: string, s: string, after: string)
    requires AllSpace(before) && AllSpace(after) && Tight(s) && !(|s| >= 5 && s[..5] == "data:")
    ensures PanelPayload(before + s + after) == None
  {
    TrimPads(before, s, after);
  }

  // ------------------------------------------------------- what a stream shows

  /** The events a reader gets from the lines. */
  function Events(read: string -> Option<string>, parse: Parser, lines: seq<string>): seq<Event> {
    if lines == [] then []
    else
      var event := EventIn(read, parse, lines[|lines| - 1]);
      Events(read, parse, lines[..|lines| - 1]) + if event.Some? then [event.value] else []
  }

  function AllEvents<V>(react: (V, Event) -> V, v: V, events: seq<Event>): V {
    if events == [] then v else react(AllEvents(react, v, events[..|events| - 1]), events[|events| - 1])
  }

  lemma {:induction false} LinesAreEvents<V>(read: string -> Option<string>, parse: Parser, react: (V, Event) -> V, v: V, lines: seq<string>)
    ensures AllLines(LineStep(read, parse, react), v, lines) == AllEvents(react, v, Events(read, parse, lines))
    decreases |lines|
  {
    if lines != [] {
      var front, all := Events(read, parse, lines[..|lines| - 1]), Events(read, parse, lines);
      LinesAreEvents(read, parse, react, v, lines[..|lines| - 1]);
      if |all| > |front| {
        assert all[..|front|] == front;
      } else {
        assert all == front;
      }
    }
  }

  function DeltaText(e: Event): string { if e.Delta? then e.content else "" }

  /** The text of all delta events. */
  function TextOf(events: seq<Event>): string {
    if events == [] then "" else TextOf(events[..|events| - 1]) + DeltaText(events[|events| - 1])
  }

  lemma {:induction false} TextSnoc(events: seq<Event>, e: Event)
    ensures TextOf(events + [e]) == TextOf(events) + DeltaText(e)
  {
    assert (events + [e])[..|events|] == events;
  }

  function DraftsOf(events: seq<Event>): seq<string> {
    if events == [] then []
    else
      var last := events[|events| - 1];
      DraftsOf(events[..|events| - 1]) + if last.Draft? then [last.draft] else []
  }

  /** No event from the k-th on is a tool's. */
  predicate NoToolsFrom(events: seq<Event>, k: nat) { forall i :: k <= i < |events| ==> !events[i].ToolStarted? && !events[i].ToolCompleted? }
  predicate NoErrorsFrom(events: seq<Event>, k: nat) { forall i :: k <= i < |events| ==> !events[i].Failed? }

  lemma {:induction false} PanelTextAndDrafts(v: Panel, events: seq<Event>)
    ensures var w := AllEvents(PanelEvent, v, events); w.text == v.text + TextOf(events) && w.drafts == v.drafts + DraftsOf(events)
    decreases |events|
  {
    if events != [] { PanelTextAndDrafts(v, events[..|events| - 1]); }
  }

  lemma {:induction false} PanelKeeps(v: Panel, events: seq<Event>, k: nat)
    requires k <= |events|
    ensures NoToolsFrom(events, k) ==> AllEvents(PanelEvent, v, events).activity == AllEvents(PanelEvent, v, events[..k]).activity
    ensures NoErrorsFrom(events, k) ==> AllEvents(PanelEvent, v, events).error == AllEvents(PanelEvent, v, events[..k]).error
    decreases |events|
  {
    if k < |events| {
      var front := events[..|events| - 1];
      PanelKeeps(v, front, k);
      assert front[..k] == events[..k];
    } else {
      assert events[..k] == events;
    }
  }

  lemma {:induction false} PanelSays(v: Panel, events: seq<Event>, k: nat)
    requires k < |events|
    ensures var w, e := AllEvents(PanelEvent, v, events), events[k];
            && (NoToolsFrom(events, k + 1) && e.ToolStarted? ==> w.activity == e.name)
            && (NoToolsFrom(events, k + 1) && e.ToolCompleted? ==> w.activity == e.name)
            && (NoErrorsFrom(events, k + 1) && e.Failed? ==> w.error == e.message)
  {
    PanelKeeps(v, events, k + 1);
    var upto := events[..k + 1];
    assert upto[|upto| - 1] == events[k];
  }

  /** The panel shows all of the delta text in order and nothing else, the drafts in
      order, what the last tool event said, and the last error. */
  lemma {:induction false} PanelShows(parse: Parser, start: Panel, lines: seq<string>, k: nat)
    ensures var events, v := Events(PanelPayload, parse, lines), AllLines(PanelStep(parse), start, lines);
            && v.text == start.text + TextOf(events)
            && v.drafts == start.drafts + DraftsOf(events)
            && (k < |events| && NoToolsFrom(events, k + 1) && events[k].ToolStarted? ==> v.activity == events[k].name)
            && (k < |events| && NoToolsFrom(events, k + 1) && events[k].ToolCompleted? ==> v.activity == events[k].name)
            && (k < |events| && NoErrorsFrom(events, k + 1) && events[k].Failed? ==> v.error == events[k].message)
            && (NoToolsFrom(events, 0) ==> v.activity == start.activity) && (NoErrorsFrom(events, 0) ==> v.error == start.error)
  {
    var events := Events(PanelPayload, parse, lines);
    LinesAreEvents(PanelPayload, parse, PanelEvent, start, lines);
    PanelTextAndDrafts(start, events);
    PanelKeeps(start, events, 0);
    if k < |events| { PanelSays(start, events, k); }
  }

  /** Where the first error event is, or |events|. */
  function FirstError(events: seq<Event>): (k: nat)
    ensures k <= |events| && (k < |events| ==> events[k].Failed?) && forall i :: 0 <= i < k ==> !events[i].Failed?
  {
    if events == [] || events[0].Failed? then 0
    else
      var k := FirstError(events[1..]);
      assert forall i :: 1 <= i < k + 1 ==> events[i] == events[1..][i - 1];
      k + 1
  }

  lemma PageEventText(v: Page, e: Event)
    requires v.text != "" || !e.Failed?
    ensures PageEvent(v, e).text == v.text + DeltaText(e)
  {
  }

  /** Once there is text, or as long as no error comes, deltas alone add to it. */
  lemma {:induction false} PageTextGrows(v: Page, events: seq<Event>, k: nat)
    requires k <= |events| && (AllEvents(PageEvent, v, events[..k]).text != "" || forall i :: k <= i < |events| ==> !events[i].Failed?)
    ensures AllEvents(PageEvent, v, events).text == AllEvents(PageEvent, v, events[..k]).text + TextOf(events[k..])
    decreases |events|
  {
    if k == |events| {
      assert events[..k] == events && events[k..] == [];
    } else {
      var front, last := events[..|events| - 1], events[|events| - 1];
      assert front[..k] == events[..k];
      PageTextGrows(v, front, k);
      PageEventText(AllEvents(PageEvent, v, front), last);
      assert events[k..] == front[k..] + [last];
      TextSnoc(front[k..], last);
      Associate(AllEvents(PageEvent, v, events[..k]).text, TextOf(front[k..]), DeltaText(last));
    }
  }

  /** The page's text: the delta text in order; when an error comes before there is any
      text, an apology takes its place and later deltas go behind it. */
  lemma {:induction false} PageText(parse: Parser, start: Page, lines: seq<string>)
    ensures var events, v := Events(PagePayload, parse, lines), AllLines(PageStep(parse), start, lines);
            var k := FirstError(events);
            v.text == if k < |events| && start.text + TextOf(events[..k]) == ""
                      then SORRY + events[k].message + TextOf(events[k + 1..])
                      else start.text + TextOf(events)
  {
    LinesAreEvents(PagePayload, parse, PageEvent, start, lines);
    PageTextOf(start, Events(PagePayload, parse, lines));
  }

  lemma {:induction false} TextBeforeError(start: Page, events: seq<Event>, k: nat)
    requires k <= |events| && forall i :: 0 <= i < k ==> !events[i].Failed?
    ensures AllEvents(PageEvent, start, events[..k]).text == start.text + TextOf(events[..k])
  {
    var front := events[..k];
    assert front[..0] == [] && front[0..] == front;
    PageTextGrows(start, front, 0);
  }

  lemma {:induction false} TextGoesOn(start: Page, events: seq<Event>, k: nat)
    requires k <= |events| && AllEvents(PageEvent, start, events[..k]).text == start.text + TextOf(events[..k])
    requires AllEvents(PageEvent, start, events[..k]).text != "" || k == |events|
    ensures AllEvents(PageEvent, start, events).text == start.text + TextOf(events)
  {
    PageTextGrows(start, events, k);
    TextSplits(events, k);
    Associate(start.text, TextOf(events[..k]), TextOf(events[k..]));
  }

  lemma {:induction false} PageTextOf(start: Page, events: seq<Event>)
    ensures var k := FirstError(events);
            AllEvents(PageEvent, start, events).text ==
            if k < |events| && start.text + TextOf(events[..k]) == "" then SORRY + events[k].message + TextOf(events[k + 1..])
            else start.text + TextOf(events)
  {
    var k := FirstError(events);
    TextBeforeError(start, events, k);
    if k < |events| && start.text + TextOf(events[..k]) == "" {
      Apologizes(start, events, k);
      PageTextGrows(start, events, k + 1);
    } else {
      TextGoesOn(start, events, k);
    }
  }

  lemma {:induction false} Apologizes(start: Page, events: seq<Event>, k: nat)
    requires k < |events| && events[k].Failed? && AllEvents(PageEvent, start, events[..k]).text == ""
    ensures AllEvents(PageEvent, start, events[..k + 1]).text == SORRY + events[k].message
  {
    assert events[..k + 1][..k] == events[..k];
  }

  lemma {:induction false} TextSplits(events: seq<Event>, k: nat)
    requires k <= |events|
    ensures TextOf(events) == TextOf(events[..k]) + TextOf(events[k..])
    decreases |events|
  {
    if k == |events| {
      assert events[..k] == events && events[k..] == [];
    } else {
      var front, last := events[..|events| - 1], events[|events| - 1];
      assert front[..k] == events[..k] && events[k..] == front[k..] + [last];
      TextSplits(front, k);
      TextSnoc(front[k..], last);
      Associate(TextOf(events[..k]), TextOf(front[k..]), DeltaText(last));
    }
  }

  /** A pending entry leads to an unfinished card of its own tool. */
  predicate PendingOk(v: Page) {
    forall t :: t in v.pending ==> v.pending[t] < |v.cards| && !v.cards[v.pending[t]].completed && v.cards[v.pending[t]].tool == t
  }

  /** An unfinished card that no completion will find. */
  predicate Orphan(v: Page, i: nat) {
    i < |v.cards| && !v.cards[i].completed && forall t :: t in v.pending ==> v.pending[t] != i
  }

  predicate Overlaps(v: Page, e: Event) { e.ToolStarted? && e.tool in v.pending }

  lemma PageEventKeepsPending(v: Page, e: Event)
    requires PendingOk(v)
    ensures PendingOk(PageEvent(v, e))
  {
  }

  /** A card is orphaned exactly when a tool is started again before it completed. */
  lemma OrphanedExactly(v: Page, e: Event)
    requires PendingOk(v) && forall i: nat :: !Orphan(v, i)
    ensures (exists i: nat :: Orphan(PageEvent(v, e), i)) <==> Overlaps(v, e)
  {
    var w := PageEvent(v, e);
    if Overlaps(v, e) {
      assert Orphan(w, v.pending[e.tool]);
    } else {
      forall i: nat ensures !Orphan(w, i) {
        assert !Orphan(v, i);
        if e.ToolStarted? { assert e.tool in w.pending && w.pending[e.tool] == |v.cards|; }
        if i < |v.cards| && !v.cards[i].completed {
          var t :| t in v.pending && v.pending[t] == i;
          if e.ToolStarted? { assert t in w.pending && w.pending[t] == i; }
          if e.ToolCompleted? && t != e.tool { assert t in w.pending && w.pending[t] == i; }
        }
      }
    }
  }

  lemma OrphanStays(v: Page, e: Event, i: nat)
    requires PendingOk(v) && Orphan(v, i)
    ensures Orphan(PageEvent(v, e), i)
  {
  }

  // ------------------------------------------------------ over a whole stream

  const EMPTY_PAGE: Page := Page("", [], map[])

  /** The finished cards, whatever their order. */
  function Finished(cards: seq<Card>): multiset<Card> {
    if cards == [] then multiset{}
    else
      var last := cards[|cards| - 1];
      Finished(cards[..|cards| - 1]) + if last.completed then multiset{last} else multiset{}
  }

  /** What the completed tools of the stream reported. */
  function Reports(events: seq<Event>): multiset<Card> {
    if events == [] then multiset{}
    else
      var last := events[|events| - 1];
      Reports(events[..|events| - 1]) + if last.ToolCompleted? then multiset{Card(true, last.tool, last.name)} else multiset{}
  }

  lemma {:induction false} FinishedSnoc(cards: seq<Card>, c: Card)
    ensures Finished(cards + [c]) == Finished(cards) + if c.completed then multiset{c} else multiset{}
  {
    assert (cards + [c])[..|cards|] == cards;
  }

  lemma {:induction false} FinishedUpdate(cards: seq<Card>, k: nat, c: Card)
    requires k < |cards| && !cards[k].completed && c.completed
    ensures Finished(cards[k := c]) == Finished(cards) + multiset{c}
    decreases |cards|
  {
    var front, last := cards[..|cards| - 1], cards[|cards| - 1];
    if k == |cards| - 1 {
      assert cards[k := c] == front + [c];
      FinishedSnoc(front, c);
    } else {
      assert cards[k := c] == front[k := c] + [last];
      FinishedSnoc(front[k := c], last);
      FinishedUpdate(front, k, c);
    }
  }

  lemma PageEventFinishes(v: Page, e: Event)
    requires PendingOk(v)
    ensures Finished(PageEvent(v, e).cards) ==
            Finished(v.cards) + if e.ToolCompleted? then multiset{Card(true, e.tool, e.name)} else multiset{}
  {
    if e.ToolStarted? { FinishedSnoc(v.cards, Card(false, e.tool, e.name)); }
    if e.ToolCompleted? {
      var c := Card(true, e.tool, e.name);
      if e.tool in v.pending { FinishedUpdate(v.cards, v.pending[e.tool], c); } else { FinishedSnoc(v.cards, c); }
    }
  }

  lemma {:induction false} EventsFinish(events: seq<Event>)
    ensures Finished(AllEvents(PageEvent, EMPTY_PAGE, events).cards) == Reports(events)
  {
    if events != [] {
      var front := events[..|events| - 1];
      EventsFinish(front);
      StreamKeepsPending(front);
      PageEventFinishes(AllEvents(PageEvent, EMPTY_PAGE, front), events[|events| - 1]);
    }
  }

  /** Each completion shows on one finished card, and no finished card shows anything else. */
  lemma {:induction false} CompletionsAreShown(parse: Parser, lines: seq<string>)
    ensures Finished(AllLines(PageStep(parse), EMPTY_PAGE, lines).cards) == Reports(Events(PagePayload, parse, lines))
  {
    LinesAreEvents(PagePayload, parse, PageEvent, EMPTY_PAGE, lines);
    EventsFinish(Events(PagePayload, parse, lines));
  }

  /** The tool has started and not completed since. */
  predicate Running(events: seq<Event>, tool: string) {
    events != [] &&
      var last := events[|events| - 1];
      if last.ToolStarted? && last.tool == tool then true
      else if last.ToolCompleted? && last.tool == tool then false
      else Running(events[..|events| - 1], tool)
  }

  /** Some tool starts while it is running. */
  predicate Restarts(events: seq<Event>) {
    events != [] &&
      var front, last := events[..|events| - 1], events[|events| - 1];
      Restarts(front) || (last.ToolStarted? && Running(front, last.tool))
  }

  lemma {:induction false} PendingAreRunning(events: seq<Event>, tool: string)
    ensures tool in AllEvents(PageEvent, EMPTY_PAGE, events).pending <==> Running(events, tool)
  {
    if events != [] { PendingAreRunning(events[..|events| - 1], tool); }
  }

  lemma {:induction false} StreamKeepsPending(events: seq<Event>)
    ensures PendingOk(AllEvents(PageEvent, EMPTY_PAGE, events))
  {
    if events != [] {
      StreamKeepsPending(events[..|events| - 1]);
      PageEventKeepsPending(AllEvents(PageEvent, EMPTY_PAGE, events[..|events| - 1]), events[|events| - 1]);
    }
  }

  ghost predicate HasOrphan(v: Page) { exists i: nat :: Orphan(v, i) }

  lemma {:induction false} EventsOrphanExactly(events: seq<Event>)
    ensures HasOrphan(AllEvents(PageEvent, EMPTY_PAGE, events)) <==> Restarts(events)
  {
    if events != [] {
      var front, last := events[..|events| - 1], events[|events| - 1];
      var v := AllEvents(PageEvent, EMPTY_PAGE, front);
      EventsOrphanExactly(front);
      StreamKeepsPending(front);
      if HasOrphan(v) {
        var i: nat :| Orphan(v, i);
        OrphanStays(v, last, i);
      } else {
        OrphanedExactly(v, last);
        if last.ToolStarted? { PendingAreRunning(front, last.tool); }
      }
    }
  }

  /** A stream leaves a card unfinished that no completion would find exactly when some
      tool in it starts again before it has completed. */
  lemma {:induction false} StreamOrphansExactly(parse: Parser, lines: seq<string>)
    ensures HasOrphan(AllLines(PageStep(parse), EMPTY_PAGE, lines)) <==> Restarts(Events(PagePayload, parse, lines))
  {
    LinesAreEvents(PagePayload, parse, PageEvent, EMPTY_PAGE, lines);
    EventsOrphanExactly(Events(PagePayload, parse, lines));
  }
}
