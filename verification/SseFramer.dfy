/**
 * Server-sent event framing: a buffer-carrying parser proved against a grammar over the whole input,
 * lossless in its raw capture, and inverse to the renderer.
 */
module SseFramer {
  import opened Folds
  import opened LineFeed
  import opened Wire

  datatype Frame = Frame(eventType: string, data: string, raw: string)

  /** The block being collected. */
  datatype Block = Block(eventType: string, data: string, sawFrame: bool, raw: string)

  const Fresh := Block("", "", false, "")

  type Line = Feed<Block, Frame, ()>

  // ---- one line ----

  datatype Field = Blank | Comment | EventField(name: string) | DataField(payload: string) | Unknown

  function Classify(text: string): Field {
    if text == "" then Blank
    else if HasPrefix(text, ":") then Comment
    else if HasPrefix(text, "event:") then EventField(TrimSpace(text[6..]))
    else if HasPrefix(text, "data:") then
      var rest := text[5..];
      DataField(if HasPrefix(rest, " ") then rest[1..] else rest)
    else Unknown
  }

  lemma PrefixIff(text: string, prefix: string, rest: string)
    ensures HasPrefix(text, prefix) && text[|prefix|..] == rest <==> text == prefix + rest
  {
    if text == prefix + rest {
      assert text[..|prefix|] == prefix;
    }
    if HasPrefix(text, prefix) {
      assert text == text[..|prefix|] + text[|prefix|..];
    }
  }

  /** The fields of the grammar: a name with white space around it, and a payload after at most one space. */
  ghost predicate Names(text: string, name: string) {
    exists rest :: text == "event:" + rest && Padded(rest, name)
  }

  predicate Carries(text: string, payload: string) {
    text == "data: " + payload || (text == "data:" + payload && !HasPrefix(payload, " "))
  }

  /** How a line is read. */
  lemma ClassifyIff(text: string, value: string)
    ensures Classify(text) == EventField(value) <==> Names(text, value)
    ensures Classify(text) == DataField(value) <==> Carries(text, value)
    ensures Classify(text) == Blank <==> text == ""
  {
    assert ":"[0] == ':' && "event:"[0] == 'e' && "data:"[0] == 'd';
    if HasPrefix(text, "event:") {
      assert text[0] == 'e';
      EventIff(text, text[6..], value);
    } else {
      NamesStart(text, value);
    }
    if HasPrefix(text, "data:") {
      assert text[0] == 'd';
      DataIff(text, text[5..], value);
    } else {
      PrefixIff(text, "data:", value);
      PrefixIff(text, "data:", " " + value);
      assert "data: " + value == "data:" + (" " + value);
    }
  }

  lemma NamesStart(text: string, name: string)
    ensures Names(text, name) ==> HasPrefix(text, "event:")
  {
    if Names(text, name) {
      var rest :| text == "event:" + rest && Padded(rest, name);
      PrefixIff(text, "event:", rest);
    }
  }

  lemma EventIff(text: string, rest: string, name: string)
    requires HasPrefix(text, "event:") && rest == text[6..]
    ensures TrimSpace(rest) == name <==> Names(text, name)
  {
    TrimSpaceIff(rest, name);
    PrefixIff(text, "event:", rest);
    if Names(text, name) {
      var other :| text == "event:" + other && Padded(other, name);
      PrefixIff(text, "event:", other);
    }
  }

  lemma DataIff(text: string, rest: string, payload: string)
    requires HasPrefix(text, "data:") && rest == text[5..]
    ensures (if HasPrefix(rest, " ") then rest[1..] else rest) == payload <==> Carries(text, payload)
  {
    PrefixIff(text, "data:", rest);
    PrefixIff(text, "data:", payload);
    PrefixIff(text, "data:", " " + payload);
    PrefixIff(rest, " ", payload);
    assert "data: " + payload == "data:" + (" " + payload);
  }

  function Take(b: Block, field: Field): Line {
    match field
    case Blank =>
      if b.sawFrame then Feed(Fresh, [Frame(b.eventType, b.data, b.raw)], Open) else Feed(b, [], Open)
    case Comment => Feed(b, [], Open)
    case EventField(name) => Feed(b.(eventType := name, sawFrame := true), [], Open)
    case DataField(payload) =>
      Feed(b.(data := if b.data != "" then b.data + "\n" + payload else payload, sawFrame := true), [], Open)
    case Unknown => Feed(b, [], Open)
  }

  /** Raw capture keeps the line verbatim, carriage return and newline included. */
  function StepLine(wantRaw: bool, b: Block, line: string): Line {
    Take(if wantRaw then b.(raw := b.raw + line + "\n") else b, Classify(TrimCR(line)))
  }

  function Handler(wantRaw: bool): (Block, string) -> Line {
    (b: Block, line: string) => StepLine(wantRaw, b, line)
  }

  // ---- the framer ----

  class SSEFramer {
    const wantRaw: bool
    var buf: string
    var eventType: string
    var data: string
    var sawFrame: bool
    var raw: string

    function View(): Block
      reads this
    {
      Block(eventType, data, sawFrame, raw)
    }

    constructor (wantRaw: bool)
      ensures this.wantRaw == wantRaw && View() == Fresh && buf == ""
    {
      this.wantRaw := wantRaw;
      buf, eventType, data, sawFrame, raw := "", "", "", false, "";
    }

    method Push(chunk: string)
      modifies this`buf
      ensures buf == old(buf) + chunk
    {
      buf := buf + chunk;
    }

    /** One line, already removed from the buffer; says whether it completed a frame. */
    method HandleLine(line: string) returns (frame: Option<Frame>)
      modifies this`eventType, this`data, this`sawFrame, this`raw
      ensures var r := StepLine(wantRaw, old(View()), line);
              View() == r.state && r.events == (if frame.Some? then [frame.value] else []) && r.status == Open
    {
      if wantRaw {
        raw := raw + line + "\n";
      }
      frame := None;
      match Classify(TrimCR(line))
      case Blank =>
        if sawFrame {
          frame := Some(Frame(eventType, data, raw));
          eventType, data, sawFrame, raw := "", "", false, "";
        }
      case Comment =>
      case EventField(name) =>
        eventType, sawFrame := name, true;
      case DataField(payload) =>
        if data != "" {
          data := data + "\n";
        }
        data, sawFrame := data + payload, true;
      case Unknown =>
    }

    /** The next complete frame; none means the buffer needs more input. The buffer shrinks with every frame. */
    method Next() returns (frame: Option<Frame>)
      modifies this
      ensures |buf| <= |old(buf)| && (frame.Some? ==> |buf| < |old(buf)|)
      ensures Advances(wantRaw, old(View()), old(buf), Emitted(frame), View(), buf)
      ensures frame.None? ==> TakeLine(buf).0 < 0
    {
      HalfwayStart(Handler(wantRaw), View(), buf);
      while true
        invariant |buf| <= |old(buf)|
        invariant Advances(wantRaw, old(View()), old(buf), [], View(), buf)
        decreases |buf|
      {
        AdvanceLine(wantRaw, old(View()), old(buf), View(), buf);
        var (i, line, rest) := TakeLine(buf);
        if i < 0 {
          return None;
        }
        buf := rest;
        frame := HandleLine(line);
        if frame.Some? {
          return;
        }
      }
    }

    /** What every converter does with a chunk: push it, then take frames until none is left. */
    method Frames(chunk: string) returns (frames: seq<Frame>)
      modifies this
      ensures Drain(Handler(wantRaw), old(View()), Lines(old(buf) + chunk)) == Feed(View(), frames, Open)
      ensures buf == Tail(old(buf) + chunk)
    {
      Push(chunk);
      ghost var bytes := buf;
      frames := [];
      HalfwayStart(Handler(wantRaw), View(), buf);
      while true
        invariant Advances(wantRaw, old(View()), bytes, frames, View(), buf)
        decreases |buf|
      {
        ghost var st, was := View(), buf;
        var frame := Next();
        AdvanceThen(wantRaw, old(View()), bytes, frames, st, was, Emitted(frame), View(), buf);
        frames := frames + Emitted(frame);
        if frame.None? {
          AdvanceEnd(wantRaw, old(View()), bytes, frames, View(), buf);
          break;
        }
      }
    }
  }

  function Emitted(frame: Option<Frame>): seq<Frame> {
    if frame.Some? then [frame.value] else []
  }

  /** Lines of `text` have been taken and gave `frames`; the lines of `rest` are still to come. */
  ghost predicate Advances(wantRaw: bool, b: Block, text: string, frames: seq<Frame>, now: Block, rest: string) {
    Halfway(Handler(wantRaw), b, Lines(text), Tail(text), Feed(now, frames, Open), rest)
  }

  lemma AdvanceLine(wantRaw: bool, b: Block, text: string, now: Block, rest: string)
    requires Advances(wantRaw, b, text, [], now, rest)
    ensures var (i, line, rest') := TakeLine(rest);
            i >= 0 ==> var r := StepLine(wantRaw, now, line); Advances(wantRaw, b, text, r.events, r.state, rest')
  {
    HalfwayLine(Handler(wantRaw), b, Lines(text), Tail(text), Feed(now, [], Open), rest);
    var r := StepLine(wantRaw, now, TakeLine(rest).1);
    assert [] + r.events == r.events;
  }

  lemma AdvanceThen(wantRaw: bool, b: Block, text: string, f: seq<Frame>, mid: Block, rest: string, g: seq<Frame>, now: Block, rest': string)
    requires Advances(wantRaw, b, text, f, mid, rest) && Advances(wantRaw, mid, rest, g, now, rest')
    ensures Advances(wantRaw, b, text, f + g, now, rest')
  {
    HalfwayThen(Handler(wantRaw), b, Lines(text), Tail(text), Feed(mid, f, Open), rest, Feed(now, g, Open), rest');
  }

  lemma {:induction false} AdvanceEnd(wantRaw: bool, b: Block, text: string, frames: seq<Frame>, now: Block, rest: string)
    requires Advances(wantRaw, b, text, frames, now, rest) && TakeLine(rest).0 < 0
    ensures Drain(Handler(wantRaw), b, Lines(text)) == Feed(now, frames, Open) && rest == Tail(text)
  {
    HalfwayLine(Handler(wantRaw), b, Lines(text), Tail(text), Feed(now, frames, Open), rest);
  }

  lemma {:induction false} AdvanceRest(wantRaw: bool, b: Block, text: string, frames: seq<Frame>, now: Block, rest: string)
    requires Advances(wantRaw, b, text, frames, now, rest)
    ensures Drain(Handler(wantRaw), b, Lines(text)).events == frames + Drain(Handler(wantRaw), now, Lines(rest)).events
  {
  }

  // ---- the grammar, over whole inputs ----

  /** Name and payload of an event. */
  type Event = (string, string)

  /** The lines since the last blank one. */
  function Pending(lines: seq<string>): seq<string>
    decreases |lines|
  {
    if lines == [] || lines[|lines| - 1] == "" then [] else Pending(lines[..|lines| - 1]) + [lines[|lines| - 1]]
  }

  /** The blocks that a blank line has ended. */
  function Blocks(lines: seq<string>): seq<seq<string>>
    decreases |lines|
  {
    if lines == [] then []
    else
      var before := lines[..|lines| - 1];
      Blocks(before) + if lines[|lines| - 1] == "" then [Pending(before)] else []
  }

  function Unblock(blocks: seq<seq<string>>): seq<string>
    decreases |blocks|
  {
    if blocks == [] then [] else Unblock(blocks[..|blocks| - 1]) + blocks[|blocks| - 1] + [""]
  }

  /** The blocks and the pending lines are the lines, and no block contains a blank line. */
  lemma {:induction false} BlocksPartition(lines: seq<string>)
    ensures Unblock(Blocks(lines)) + Pending(lines) == lines
    ensures "" !in Pending(lines) && forall b :: b in Blocks(lines) ==> "" !in b
    decreases |lines|
  {
    if lines != [] {
      var before, last := lines[..|lines| - 1], lines[|lines| - 1];
      BlocksPartition(before);
      assert lines == before + [last];
      if last == "" {
        var blocks := Blocks(before) + [Pending(before)];
        assert blocks[..|blocks| - 1] == Blocks(before);
      } else {
        assert Blocks(before) + [] == Blocks(before);
      }
    }
  }

  predicate HasField(lines: seq<string>) {
    exists i :: 0 <= i < |lines| && (Classify(lines[i]).EventField? || Classify(lines[i]).DataField?)
  }

  /** The last event name wins. */
  function LastEvent(lines: seq<string>): string
    decreases |lines|
  {
    if lines == [] then ""
    else
      var f := Classify(lines[|lines| - 1]);
      if f.EventField? then f.name else LastEvent(lines[..|lines| - 1])
  }

  function DataValues(lines: seq<string>): seq<string>
    decreases |lines|
  {
    if lines == [] then []
    else
      var f := Classify(lines[|lines| - 1]);
      DataValues(lines[..|lines| - 1]) + if f.DataField? then [f.payload] else []
  }

  function DropLeadingEmpty(values: seq<string>): seq<string>
    decreases |values|
  {
    if values != [] && values[0] == "" then DropLeadingEmpty(values[1..]) else values
  }

  function Join(values: seq<string>): string
    decreases |values|
  {
    if values == [] then ""
    else if |values| == 1 then values[0]
    else Join(values[..|values| - 1]) + "\n" + values[|values| - 1]
  }

  function DataOf(lines: seq<string>): string {
    Join(DropLeadingEmpty(DataValues(lines)))
  }

  function EventOf(lines: seq<string>): seq<Event> {
    if HasField(lines) then [(LastEvent(lines), DataOf(lines))] else []
  }

  /** The event of every ended block that has a field; an unterminated block is no event. */
  function Events(blocks: seq<seq<string>>): seq<Event>
    decreases |blocks|
  {
    if blocks == [] then [] else Events(blocks[..|blocks| - 1]) + EventOf(blocks[|blocks| - 1])
  }

  /** A line ends in a newline or a carriage return and a newline. */
  function Texts(lines: seq<string>): seq<string> {
    seq(|lines|, i requires 0 <= i < |lines| => TrimCR(lines[i]))
  }

  function Labels(frames: seq<Frame>): seq<Event> {
    seq(|frames|, i requires 0 <= i < |frames| => (frames[i].eventType, frames[i].data))
  }

  /** The block being collected is what the lines since the last blank line say. */
  predicate Summarizes(b: Block, pending: seq<string>) {
    b.eventType == LastEvent(pending) && b.data == DataOf(pending) && b.sawFrame == HasField(pending)
  }

  lemma {:induction false} DropThenAppend(values: seq<string>, v: string)
    ensures DropLeadingEmpty(values + [v]) ==
            if DropLeadingEmpty(values) != [] then DropLeadingEmpty(values) + [v] else if v == "" then [] else [v]
    decreases |values|
  {
    if values == [] {
      assert [v][1..] == [];
    } else if values[0] == "" {
      assert (values + [v])[1..] == values[1..] + [v];
      DropThenAppend(values[1..], v);
    }
  }

  lemma {:induction false} JoinEmpty(values: seq<string>)
    requires values != [] && values[0] != ""
    ensures Join(values) != ""
    decreases |values|
  {
    if |values| > 1 {
      assert values[..|values| - 1][0] == values[0];
    }
  }

  lemma {:induction false} DropHasNoLeadingEmpty(values: seq<string>)
    ensures var d := DropLeadingEmpty(values); d != [] ==> d[0] != ""
    decreases |values|
  {
    if values != [] && values[0] == "" {
      DropHasNoLeadingEmpty(values[1..]);
    }
  }

  /** The incremental join of the parser is the join of the payloads after the leading empty ones. */
  lemma DataOfNext(lines: seq<string>, line: string)
    ensures DataOf(lines + [line]) ==
            match Classify(line)
            case DataField(v) => if DataOf(lines) != "" then DataOf(lines) + "\n" + v else v
            case _ => DataOf(lines)
  {
    assert (lines + [line])[..|lines|] == lines;
    var values := DataValues(lines);
    if Classify(line).DataField? {
      var v := Classify(line).payload;
      DropThenAppend(values, v);
      DropHasNoLeadingEmpty(values);
      var d := DropLeadingEmpty(values);
      if d != [] {
        JoinEmpty(d);
        assert (d + [v])[..|d|] == d;
      }
    } else {
      assert values + [] == values;
    }
  }

  lemma HasFieldNext(lines: seq<string>, line: string)
    ensures HasField(lines + [line]) <==> HasField(lines) || Classify(line).EventField? || Classify(line).DataField?
  {
    var all := lines + [line];
    assert all[|lines|] == line && forall i :: 0 <= i < |lines| ==> all[i] == lines[i];
  }

  lemma SummarizesNext(wantRaw: bool, b: Block, lines: seq<string>, line: string)
    requires Summarizes(b, lines) && TrimCR(line) != ""
    ensures Summarizes(StepLine(wantRaw, b, line).state, lines + [TrimCR(line)]) && StepLine(wantRaw, b, line).events == []
  {
    var text := TrimCR(line);
    DataOfNext(lines, text);
    HasFieldNext(lines, text);
    assert (lines + [text])[..|lines|] == lines;
  }

  /** A blank line ends the block: its event, if any, is emitted and the next block starts afresh. */
  lemma SummarizesBlank(wantRaw: bool, b: Block, lines: seq<string>, line: string)
    requires Summarizes(b, lines) && TrimCR(line) == ""
    ensures Summarizes(StepLine(wantRaw, b, line).state, [])
    ensures Labels(StepLine(wantRaw, b, line).events) == EventOf(lines)
  {
    if !HasField(lines) {
      NoFieldsNoValues(lines);
    }
  }

  lemma {:induction false} NoFieldsNoValues(lines: seq<string>)
    requires !HasField(lines)
    ensures DataValues(lines) == [] && LastEvent(lines) == ""
    decreases |lines|
  {
    if lines != [] {
      var n := |lines| - 1;
      assert lines == lines[..n] + [lines[n]];
      HasFieldNext(lines[..n], lines[n]);
      NoFieldsNoValues(lines[..n]);
    }
  }

  lemma LabelsAppend(a: seq<Frame>, b: seq<Frame>)
    ensures Labels(a + b) == Labels(a) + Labels(b)
  {
  }

  lemma {:induction false} PendingNext(texts: seq<string>, text: string)
    ensures Pending(texts + [text]) == if text == "" then [] else Pending(texts) + [text]
    ensures Events(Blocks(texts + [text])) == Events(Blocks(texts)) + if text == "" then EventOf(Pending(texts)) else []
  {
    assert (texts + [text])[..|texts|] == texts;
    var blocks := Blocks(texts) + [Pending(texts)];
    assert blocks[..|blocks| - 1] == Blocks(texts);
    assert Blocks(texts) + [] == Blocks(texts) && Events(Blocks(texts)) + [] == Events(Blocks(texts));
  }

  /** After `texts` the framer has emitted their events and holds a summary of the pending lines. */
  predicate InStep(f: Line, texts: seq<string>) {
    f.status.Open? && Labels(f.events) == Events(Blocks(texts)) && Summarizes(f.state, Pending(texts))
  }

  lemma InStepNext(wantRaw: bool, f: Line, texts: seq<string>, line: string)
    requires InStep(f, texts)
    ensures InStep(Then(f, StepLine(wantRaw, f.state, line)), texts + [TrimCR(line)])
  {
    var text, r := TrimCR(line), StepLine(wantRaw, f.state, line);
    PendingNext(texts, text);
    LabelsAppend(f.events, r.events);
    if text == "" {
      SummarizesBlank(wantRaw, f.state, Pending(texts), line);
    } else {
      SummarizesNext(wantRaw, f.state, Pending(texts), line);
    }
    InStepWith(f, texts, r, texts + [text], if text == "" then EventOf(Pending(texts)) else []);
  }

  lemma InStepWith(f: Line, texts: seq<string>, r: Line, all: seq<string>, more: seq<Event>)
    requires InStep(f, texts) && r.status.Open? && Labels(f.events + r.events) == Labels(f.events) + Labels(r.events)
    requires Labels(r.events) == more && Events(Blocks(all)) == Events(Blocks(texts)) + more && Summarizes(r.state, Pending(all))
    ensures InStep(Then(f, r), all)
  {
  }

  lemma TextsLast(lines: seq<string>)
    requires lines != []
    ensures Texts(lines) == Texts(lines[..|lines| - 1]) + [TrimCR(lines[|lines| - 1])]
  {
  }

  lemma {:induction false} DrainFollowsGrammar(wantRaw: bool, lines: seq<string>)
    ensures InStep(Drain(Handler(wantRaw), Fresh, lines), Texts(lines))
    decreases |lines|
  {
    if lines != [] {
      var n := |lines| - 1;
      DrainFollowsGrammar(wantRaw, lines[..n]);
      TextsLast(lines);
      InStepNext(wantRaw, Drain(Handler(wantRaw), Fresh, lines[..n]), Texts(lines[..n]), lines[n]);
    }
  }

  /** However the bytes are pushed, the frames are the events of the blocks of the whole text. */
  lemma {:induction false} FramesAreTheGrammar(wantRaw: bool, parts: seq<string>)
    ensures Labels(FeedChunks(Handler(wantRaw), Fresh, parts).feed.events) == Events(Blocks(Texts(Lines(Concat(parts)))))
  {
    ChunkingIndependence(Handler(wantRaw), Fresh, parts);
    DrainFollowsGrammar(wantRaw, Lines(Concat(parts)));
  }

  // ---- raw capture is lossless ----

  function Raws(frames: seq<Frame>): string
    decreases |frames|
  {
    if frames == [] then "" else Raws(frames[..|frames| - 1]) + frames[|frames| - 1].raw
  }

  function Unlines(lines: seq<string>): string
    decreases |lines|
  {
    if lines == [] then "" else Unlines(lines[..|lines| - 1]) + lines[|lines| - 1] + "\n"
  }

  lemma {:induction false} SplitIsLossless(text: string)
    ensures Unlines(Lines(text)) + Tail(text) == text
    decreases |text|
  {
    if text != "" {
      var n := |text| - 1;
      var before, lines := text[..n], Lines(text[..n]);
      SplitIsLossless(before);
      assert text == before + [text[n]];
      if text[n] == '\n' {
        assert (lines + [Tail(before)])[..|lines|] == lines;
      }
    }
  }

  /** Emitted raw blocks and the pending raw lines. */
  function Captured(f: Line): string {
    Raws(f.events) + f.state.raw
  }

  lemma CapturedNext(f: Line, line: string)
    ensures Captured(Then(f, StepLine(true, f.state, line))) == Captured(f) + line + "\n"
  {
    var r := StepLine(true, f.state, line);
    if r.events == [] {
      assert f.events + [] == f.events;
    } else {
      assert r.events == [Frame(f.state.eventType, f.state.data, f.state.raw + line + "\n")] && r.state.raw == "";
      assert (f.events + r.events)[..|f.events|] == f.events;
    }
  }

  lemma {:induction false} DrainCaptures(lines: seq<string>)
    ensures var f := Drain(Handler(true), Fresh, lines); f.status.Open? && Captured(f) == Unlines(lines)
    decreases |lines|
  {
    if lines != [] {
      var n := |lines| - 1;
      DrainCaptures(lines[..n]);
      CapturedNext(Drain(Handler(true), Fresh, lines[..n]), lines[n]);
    }
  }

  /** The raw blocks of the frames, the pending raw lines and the partial line are all the bytes pushed. */
  lemma {:induction false} RawIsLossless(parts: seq<string>)
    ensures var g := FeedChunks(Handler(true), Fresh, parts);
            Raws(g.feed.events) + g.feed.state.raw + g.buf == Concat(parts)
  {
    ChunkingIndependence(Handler(true), Fresh, parts);
    DrainCaptures(Lines(Concat(parts)));
    SplitIsLossless(Concat(parts));
  }

  /** Without raw capture nothing is captured. */
  lemma {:induction false} NothingCaptured(lines: seq<string>)
    ensures var f := Drain(Handler(false), Fresh, lines);
            f.status.Open? && f.state.raw == "" && forall i :: 0 <= i < |f.events| ==> f.events[i].raw == ""
    decreases |lines|
  {
    if lines != [] {
      NothingCaptured(lines[..|lines| - 1]);
    }
  }

  /** The pending raw lines alone lead from a fresh framer to the present block. */
  predicate RawLeadsTo(b: Block) {
    Tail(b.raw) == "" && Drain(Handler(true), Fresh, Lines(b.raw)) == Feed(b, [], Open)
  }

  /** Framed on its own, the raw block yields exactly this frame. */
  predicate StandsAlone(e: Frame) {
    Tail(e.raw) == "" && Drain(Handler(true), Fresh, Lines(e.raw)) == Feed(Fresh, [e], Open)
  }

  lemma RawOneMore(b: Block, line: string)
    requires RawLeadsTo(b) && '\n' !in line
    ensures var raw := b.raw + line + "\n";
            Tail(raw) == "" && Drain(Handler(true), Fresh, Lines(raw)) == StepLine(true, b, line)
  {
    var h := Handler(true);
    Assoc(b.raw, line, "\n");
    SplitAppend(b.raw, line + "\n");
    assert "" + (line + "\n") == line + "\n" + "";
    SplitLine(line, "");
    assert [line] + Lines("") == [line];
    DrainAppend(h, Fresh, Lines(b.raw), [line]);
    DrainOne(h, b, line);
    assert [] + StepLine(true, b, line).events == StepLine(true, b, line).events;
  }

  lemma RawStep(b: Block, line: string)
    requires RawLeadsTo(b) && '\n' !in line
    ensures var r := StepLine(true, b, line); RawLeadsTo(r.state) && forall e :: e in r.events ==> StandsAlone(e)
  {
    RawOneMore(b, line);
    var r := StepLine(true, b, line);
    if r.events != [] {
      assert r.events == [Frame(b.eventType, b.data, b.raw + line + "\n")] && r.state == Fresh;
      assert Drain(Handler(true), Fresh, []) == Feed(Fresh, [], Open);
    }
  }

  lemma {:induction false} RawsReframe(lines: seq<string>)
    requires forall l :: l in lines ==> '\n' !in l
    ensures var f := Drain(Handler(true), Fresh, lines);
            f.status.Open? && RawLeadsTo(f.state) && forall e :: e in f.events ==> StandsAlone(e)
    decreases |lines|
  {
    if lines == [] {
      assert Lines("") == [] && Tail("") == "";
    } else {
      var n := |lines| - 1;
      RawsReframe(lines[..n]);
      RawStep(Drain(Handler(true), Fresh, lines[..n]).state, lines[n]);
    }
  }

  /** Every raw block, framed on its own, yields exactly the frame it came with and leaves nothing behind. */
  lemma {:induction false} RawBlocksStandAlone(parts: seq<string>, e: Frame)
    requires e in FeedChunks(Handler(true), Fresh, parts).feed.events
    ensures StandsAlone(e)
  {
    ChunkingIndependence(Handler(true), Fresh, parts);
    LinesArePartial(Concat(parts));
    RawsReframe(Lines(Concat(parts)));
  }

  // ---- rendering and framing are inverse ----

  function Render(e: Event): string {
    "event: " + e.0 + "\ndata: " + e.1 + "\n\n"
  }

  function RenderAll(es: seq<Event>): string
    decreases |es|
  {
    if es == [] then "" else RenderAll(es[..|es| - 1]) + Render(es[|es| - 1])
  }

  /** Names are trimmed; neither part holds a newline; the payload does not end in a carriage return. */
  predicate Plain(e: Event) {
    && '\n' !in e.0 && TrimSpace(e.0) == e.0
    && '\n' !in e.1 && TrimCR(e.1) == e.1
  }

  lemma EventLine(name: string)
    requires TrimSpace(name) == name && '\n' !in name
    ensures '\n' !in "event: " + name
    ensures Classify(TrimCR("event: " + name)) == EventField(name)
  {
    var line := "event: " + name;
    TrimmedNoCR(name);
    assert line[|line| - 1] != '\r' by {
      if name != "" {
        assert line[|line| - 1] == name[|name| - 1];
      }
    }
    assert line[..6] == "event:" && line[0] == 'e' && ":"[0] == ':';
    assert line[6..] == " " + name;
    assert (" " + name)[1..] == name;
    assert TrimLeft(" " + name) == TrimLeft(name);
  }

  lemma {:induction false} TrimRightEnd(s: string)
    ensures TrimRight(s) != "" ==> !IsSpace(TrimRight(s)[|TrimRight(s)| - 1])
    decreases |s|
  {
    if s != "" && IsSpace(s[|s| - 1]) {
      TrimRightEnd(s[..|s| - 1]);
    }
  }

  lemma TrimmedNoCR(name: string)
    requires TrimSpace(name) == name
    ensures name != "" ==> name[|name| - 1] != '\r'
  {
    TrimRightEnd(TrimLeft(name));
  }

  lemma DataLine(payload: string)
    requires TrimCR(payload) == payload && '\n' !in payload
    ensures '\n' !in "data: " + payload
    ensures Classify(TrimCR("data: " + payload)) == DataField(payload)
  {
    var line := "data: " + payload;
    assert line[|line| - 1] != '\r' by {
      if payload != "" {
        assert line[|line| - 1] == payload[|payload| - 1];
      }
    }
    assert line[..5] == "data:" && line[0] == 'd' && ":"[0] == ':' && "event:"[0] == 'e';
    assert line[..6][0] == 'd' && line[..1][0] == 'd';
    assert line[5..] == " " + payload && (" " + payload)[..1] == " ";
    assert line[5..][1..] == payload;
  }

  lemma RenderedLines(e: Event)
    requires Plain(e)
    ensures Lines(Render(e)) == ["event: " + e.0, "data: " + e.1, ""] && Tail(Render(e)) == ""
  {
    var l1, l2 := "event: " + e.0, "data: " + e.1;
    EventLine(e.0);
    DataLine(e.1);
    assert Render(e) == l1 + "\n" + (l2 + "\n" + ("" + "\n" + ""));
    SplitLine(l1, l2 + "\n" + ("" + "\n" + ""));
    SplitLine(l2, "" + "\n" + "");
    SplitLine("", "");
  }

  lemma RenderedFrames(wantRaw: bool, e: Event)
    requires Plain(e)
    ensures TextGives(wantRaw, Render(e), [e])
  {
    RenderedLines(e);
    EventLine(e.0);
    DataLine(e.1);
    var h, l1, l2 := Handler(wantRaw), "event: " + e.0, "data: " + e.1;
    var b1 := StepLine(wantRaw, Fresh, l1).state;
    var b2 := StepLine(wantRaw, b1, l2).state;
    DrainOne(h, Fresh, l1);
    DrainOne(h, b1, l2);
    DrainOne(h, b2, "");
    DrainAppend(h, Fresh, [l1], [l2]);
    DrainAppend(h, Fresh, [l1] + [l2], [""]);
    assert [l1, l2, ""] == [l1] + [l2] + [""];
  }

  /** From a fresh framer the lines give these events and leave it fresh. */
  predicate Gives(f: Line, es: seq<Event>) {
    f.status.Open? && Labels(f.events) == es && f.state == Fresh
  }

  predicate TextGives(wantRaw: bool, text: string, es: seq<Event>) {
    Gives(Drain(Handler(wantRaw), Fresh, Lines(text)), es) && Tail(text) == ""
  }

  lemma TextGivesThen(wantRaw: bool, a: string, b: string, es: seq<Event>, e: Event)
    requires TextGives(wantRaw, a, es) && TextGives(wantRaw, b, [e])
    ensures TextGives(wantRaw, a + b, es + [e])
  {
    SplitAppend(a, b);
    assert "" + b == b;
    DrainAppend(Handler(wantRaw), Fresh, Lines(a), Lines(b));
    LabelsAppend(Drain(Handler(wantRaw), Fresh, Lines(a)).events, Drain(Handler(wantRaw), Fresh, Lines(b)).events);
  }

  lemma {:induction false} RenderedAllFrames(wantRaw: bool, es: seq<Event>)
    requires forall e :: e in es ==> Plain(e)
    ensures TextGives(wantRaw, RenderAll(es), es)
    decreases |es|
  {
    if es != [] {
      var before, e := es[..|es| - 1], es[|es| - 1];
      Last(es);
      RenderedAllFrames(wantRaw, before);
      RenderedFrames(wantRaw, e);
      TextGivesThen(wantRaw, RenderAll(before), Render(e), before, e);
    }
  }

  /** Framing any list of rendered events, split anywhere, gives back the list, with nothing pending. */
  lemma {:induction false} RoundTrip(wantRaw: bool, es: seq<Event>, parts: seq<string>)
    requires forall e :: e in es ==> Plain(e)
    requires Concat(parts) == RenderAll(es)
    ensures var g := FeedChunks(Handler(wantRaw), Fresh, parts);
            Labels(g.feed.events) == es && g.feed.state == Fresh && g.buf == ""
  {
    ChunkingIndependence(Handler(wantRaw), Fresh, parts);
    RenderedAllFrames(wantRaw, es);
  }
}
