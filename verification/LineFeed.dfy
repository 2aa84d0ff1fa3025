/**
 * The consume-complete-lines loop that the converters and the framer share: bytes are appended to a
 * buffer, each complete line is handed, without its newline, to a handler, and the trailing partial
 * line stays buffered. Handling stops at the first line that ends the stream or fails.
 */
module LineFeed {
  import opened Folds

  // ---- lines ----

  /** The complete lines of a text and the partial line after them. */
  function Split(text: string): (r: (seq<string>, string))
    decreases |text|
  {
    if text == "" then ([], "")
    else
      var n := |text| - 1;
      var (lines, tail) := Split(text[..n]);
      if text[n] == '\n' then (lines + [tail], "") else (lines, tail + [text[n]])
  }

  function Lines(text: string): seq<string> {
    Split(text).0
  }

  function Tail(text: string): string {
    Split(text).1
  }

  lemma {:induction false} SplitAppend(a: string, b: string)
    ensures Lines(a + b) == Lines(a) + Lines(Tail(a) + b) && Tail(a + b) == Tail(Tail(a) + b)
    decreases |b|
  {
    if b == "" {
      assert a + b == a && Tail(a) + b == Tail(a);
      TailIsPartial(a);
      SplitPartial(Tail(a));
    } else {
      var n := |b| - 1;
      SplitAppend(a, b[..n]);
      assert (a + b)[..|a + b| - 1] == a + b[..n];
      assert (Tail(a) + b)[..|Tail(a) + b| - 1] == Tail(a) + b[..n];
    }
  }

  lemma {:induction false} SplitPartial(line: string)
    requires '\n' !in line
    ensures Split(line) == ([], line)
    decreases |line|
  {
    if line != "" {
      var n := |line| - 1;
      assert line == line[..n] + [line[n]];
      SplitPartial(line[..n]);
    }
  }

  lemma {:induction false} TailIsPartial(text: string)
    ensures '\n' !in Tail(text)
    decreases |text|
  {
    if text != "" {
      TailIsPartial(text[..|text| - 1]);
    }
  }

  lemma {:induction false} LinesArePartial(text: string)
    ensures forall l :: l in Lines(text) ==> '\n' !in l
    decreases |text|
  {
    if text != "" {
      LinesArePartial(text[..|text| - 1]);
      TailIsPartial(text[..|text| - 1]);
    }
  }

  lemma SplitLine(line: string, rest: string)
    requires '\n' !in line
    ensures Lines(line + "\n" + rest) == [line] + Lines(rest) && Tail(line + "\n" + rest) == Tail(rest)
  {
    var first := line + "\n";
    SplitPartial(line);
    assert first[..|line|] == line && first[|line|] == '\n';
    assert Split(first) == (Split(line).0 + [line], "");
    assert [] + [line] == [line];
    SplitAppend(first, rest);
    assert "" + rest == rest;
  }

  /** Index of the first newline at or after position `k`, or -1. */
  function NewlineFrom(s: string, k: nat): (i: int)
    requires k <= |s|
    ensures if i < 0 then i == -1 && '\n' !in s[k..] else k <= i < |s| && s[i] == '\n' && '\n' !in s[k..i]
    decreases |s| - k
  {
    if k == |s| then -1
    else if s[k] == '\n' then k
    else
      var i := NewlineFrom(s, k + 1);
      assert if i < 0 then s[k..] == [s[k]] + s[k + 1..] else s[k..i] == [s[k]] + s[k + 1..i];
      i
  }

  /** The first complete line and the rest, as the loops take them; none when there is no newline. */
  function TakeLine(text: string): (r: (int, string, string))
    ensures r.0 < 0 ==> Lines(text) == [] && Tail(text) == text
    ensures r.0 >= 0 ==> |r.2| < |text| && Lines(text) == [r.1] + Lines(r.2) && Tail(text) == Tail(r.2)
    ensures r.0 >= 0 ==> r.0 < |text| && r.1 == text[..r.0] && r.2 == text[r.0 + 1..]
  {
    var i := NewlineFrom(text, 0);
    if i < 0 then
      assert text[0..] == text;
      SplitPartial(text);
      (i, "", text)
    else
      assert text == text[..i] + "\n" + text[i + 1..];
      SplitLine(text[..i], text[i + 1..]);
      (i, text[..i], text[i + 1..])
  }

  function TrimCR(line: string): string {
    if line != "" && line[|line| - 1] == '\r' then line[..|line| - 1] else line
  }

  /** One carriage return before the newline belongs to the line ending. */
  lemma TrimCRIff(line: string, text: string)
    ensures TrimCR(line) == text <==> line == text + "\r" || (line == text && (text != "" ==> text[|text| - 1] != '\r'))
  {
    if line == text + "\r" {
      assert line[..|line| - 1] == text;
    }
    if TrimCR(line) == text && line != text {
      assert line == text + [line[|line| - 1]];
    }
  }

  // ---- handling lines ----

  datatype Status<+X> = Open | Done | Failed(error: X)

  /** What a handler did with one line; also what a feed did with many. */
  datatype Feed<+S, +E, +X> = Feed(state: S, events: seq<E>, status: Status<X>)

  /** Events collected before, then one more outcome. */
  function Then<S, E, X>(f: Feed<S, E, X>, r: Feed<S, E, X>): Feed<S, E, X> {
    r.(events := f.events + r.events)
  }

  /** Handle lines, or frames, until one ends the stream. */
  function Drain<S, E, X, L>(h: (S, L) -> Feed<S, E, X>, s: S, lines: seq<L>): Feed<S, E, X>
    decreases |lines|
  {
    if lines == [] then Feed(s, [], Open)
    else
      var f := Drain(h, s, lines[..|lines| - 1]);
      if f.status.Open? then Then(f, h(f.state, lines[|lines| - 1])) else f
  }

  lemma {:induction false} DrainAppend<S, E, X, L>(h: (S, L) -> Feed<S, E, X>, s: S, a: seq<L>, b: seq<L>)
    ensures var f := Drain(h, s, a);
            Drain(h, s, a + b) == if f.status.Open? then Then(f, Drain(h, f.state, b)) else f
    decreases |b|
  {
    var f := Drain(h, s, a);
    if b == [] {
      assert a + b == a && f.events + [] == f.events;
    } else {
      var n := |b| - 1;
      assert (a + b)[..|a + b| - 1] == a + b[..n];
      DrainAppend(h, s, a, b[..n]);
      if f.status.Open? {
        var g := Drain(h, f.state, b[..n]);
        if g.status.Open? {
          Assoc(f.events, g.events, h(g.state, b[n]).events);
        }
      }
    }
  }

  lemma DrainOne<S, E, X, L>(h: (S, L) -> Feed<S, E, X>, s: S, line: L)
    ensures Drain(h, s, [line]) == h(s, line)
  {
    assert [line][..0] == [];
    assert Drain(h, s, []) == Feed(s, [], Open);
    assert [] + h(s, line).events == h(s, line).events;
  }

  // ---- arbitrary chunks ----

  /** An outcome so far and the bytes still buffered. */
  datatype Session<+S, +E, +X> = Session(feed: Feed<S, E, X>, buf: string)

  /** A caller that feeds chunk after chunk until the stream is done or has failed. */
  function FeedChunks<S, E, X>(h: (S, string) -> Feed<S, E, X>, s: S, chunks: seq<string>): Session<S, E, X>
    decreases |chunks|
  {
    if chunks == [] then Session(Feed(s, [], Open), "")
    else
      var g := FeedChunks(h, s, chunks[..|chunks| - 1]);
      if !g.feed.status.Open? then g
      else
        var bytes := g.buf + chunks[|chunks| - 1];
        Session(Then(g.feed, Drain(h, g.feed.state, Lines(bytes))), Tail(bytes))
  }

  /**
   * Chunking independence: however the bytes are split into chunks, a caller that stops at the first
   * terminal status sees the events, state and status of the complete lines of all bytes, and holds
   * the partial line while the stream is open.
   */
  lemma {:induction false} ChunkingIndependence<S, E, X>(h: (S, string) -> Feed<S, E, X>, s: S, chunks: seq<string>)
    ensures var g, bytes := FeedChunks(h, s, chunks), Concat(chunks);
            g.feed == Drain(h, s, Lines(bytes)) && (g.feed.status.Open? ==> g.buf == Tail(bytes))
    decreases |chunks|
  {
    if chunks != [] {
      var n := |chunks| - 1;
      var g, before := FeedChunks(h, s, chunks[..n]), Concat(chunks[..n]);
      ChunkingIndependence(h, s, chunks[..n]);
      ConcatLast(chunks);
      SplitAppend(before, chunks[n]);
      DrainAppend(h, s, Lines(before), Lines(Tail(before) + chunks[n]));
    }
  }

  /** Corollary: two splits of the same bytes are indistinguishable. */
  lemma {:induction false} TwoSplitsAgree<S, E, X>(h: (S, string) -> Feed<S, E, X>, s: S, one: seq<string>, other: seq<string>)
    requires Concat(one) == Concat(other)
    ensures FeedChunks(h, s, one).feed == FeedChunks(h, s, other).feed
  {
    ChunkingIndependence(h, s, one);
    ChunkingIndependence(h, s, other);
  }

  // ---- for loops that take a line at a time ----

  /** The lines handled so far gave `done`; the lines of `buf` are still to come. */
  ghost predicate Halfway<S, E, X>(
    h: (S, string) -> Feed<S, E, X>, s: S, all: seq<string>, tail: string, done: Feed<S, E, X>, buf: string)
  {
    && Tail(buf) == tail
    && Drain(h, s, all) == if done.status.Open? then Then(done, Drain(h, done.state, Lines(buf))) else done
  }

  lemma HalfwayStart<S, E, X>(h: (S, string) -> Feed<S, E, X>, s: S, buf: string)
    ensures Halfway(h, s, Lines(buf), Tail(buf), Feed(s, [], Open), buf)
  {
    var f := Drain(h, s, Lines(buf));
    assert [] + f.events == f.events;
  }

  lemma {:induction false} HalfwayLine<S, E, X>(
    h: (S, string) -> Feed<S, E, X>, s: S, all: seq<string>, tail: string, done: Feed<S, E, X>, buf: string)
    requires Halfway(h, s, all, tail, done, buf) && done.status.Open?
    ensures var (i, line, rest) := TakeLine(buf);
            if i < 0 then Drain(h, s, all) == done && buf == tail
            else Halfway(h, s, all, tail, Then(done, h(done.state, line)), rest)
  {
    var (i, line, rest) := TakeLine(buf);
    if i < 0 {
      assert done.events + [] == done.events;
    } else {
      var r := h(done.state, line);
      DrainAppend(h, done.state, [line], Lines(rest));
      DrainOne(h, done.state, line);
      if r.status.Open? {
        Assoc(done.events, r.events, Drain(h, r.state, Lines(rest)).events);
      }
    }
  }

  lemma HalfwayThen<S, E, X>(
    h: (S, string) -> Feed<S, E, X>, s: S, all: seq<string>, tail: string,
    f: Feed<S, E, X>, mid: string, g: Feed<S, E, X>, buf: string)
    requires Halfway(h, s, all, tail, f, mid) && f.status.Open?
    requires Halfway(h, f.state, Lines(mid), Tail(mid), g, buf) && g.status.Open?
    ensures Halfway(h, s, all, tail, Then(f, g), buf)
  {
    Assoc(f.events, g.events, Drain(h, g.state, Lines(buf)).events);
  }
}
