/**
 * Decoded Chat Completions chunks, and what they say on their own: the text and tool calls they
 * carry, and whether they form a stream that block-structured targets can represent in order.
 */
module ChatUpstream {
  import opened Wire
  import opened Clients

  datatype ToolDelta = ToolDelta(index: int, id: string, name: string, args: string)

  datatype Choice = Choice(content: string, toolCalls: seq<ToolDelta>, finish: string)

  datatype Tokens = Tokens(prompt: int, completion: int, cached: Option<int>, reasoning: Option<int>)

  datatype Chunk = Chunk(id: string, model: string, choices: seq<Choice>, usage: Option<Tokens>)

  // ---- content ----

  /** All text, in order. Only the first choice counts. */
  function Text(chunks: seq<Chunk>): string
    decreases |chunks|
  {
    if chunks == [] then "" else Text(chunks[..|chunks| - 1]) + ChunkText(chunks[|chunks| - 1])
  }

  function ChunkText(c: Chunk): string {
    if c.choices == [] then "" else c.choices[0].content
  }

  /** One tool call: identity from the first fragment of its index, arguments from all of them. */
  datatype UpCall = UpCall(index: int, id: string, name: string, args: string)

  function AddDelta(calls: seq<UpCall>, tc: ToolDelta): seq<UpCall>
    decreases |calls|
  {
    if calls == [] then [UpCall(tc.index, tc.id, tc.name, tc.args)]
    else if calls[0].index == tc.index then [calls[0].(args := calls[0].args + tc.args)] + calls[1..]
    else [calls[0]] + AddDelta(calls[1..], tc)
  }

  function AddDeltas(calls: seq<UpCall>, tcs: seq<ToolDelta>): seq<UpCall>
    decreases |tcs|
  {
    if tcs == [] then calls else AddDeltas(AddDelta(calls, tcs[0]), tcs[1..])
  }

  function ChunkCalls(calls: seq<UpCall>, c: Chunk): seq<UpCall> {
    if c.choices == [] then calls else AddDeltas(calls, c.choices[0].toolCalls)
  }

  /** The tool calls, in order of first arrival. */
  function Calls(chunks: seq<Chunk>): seq<UpCall>
    decreases |chunks|
  {
    if chunks == [] then [] else ChunkCalls(Calls(chunks[..|chunks| - 1]), chunks[|chunks| - 1])
  }

  /** Upstream calls as a client should see them. */
  function Seen(calls: seq<UpCall>): seq<Call> {
    seq(|calls|, j requires 0 <= j < |calls| => Call(calls[j].id, calls[j].name, calls[j].args))
  }

  predicate Finishes(c: Chunk) {
    c.choices != [] && c.choices[0].finish != ""
  }

  predicate HasFinish(chunks: seq<Chunk>) {
    exists i :: 0 <= i < |chunks| && Finishes(chunks[i])
  }

  lemma HasFinishLast(chunks: seq<Chunk>)
    requires chunks != []
    ensures HasFinish(chunks) <==> HasFinish(chunks[..|chunks| - 1]) || Finishes(chunks[|chunks| - 1])
  {
    assert forall i :: 0 <= i < |chunks| - 1 ==> chunks[..|chunks| - 1][i] == chunks[i];
  }

  lemma {:induction false} AddDeltaAt(calls: seq<UpCall>, tc: ToolDelta, j: nat)
    requires j <= |calls|
    requires forall i :: 0 <= i < j ==> calls[i].index != tc.index
    requires j < |calls| ==> calls[j].index == tc.index
    ensures AddDelta(calls, tc) ==
            if j < |calls| then calls[j := calls[j].(args := calls[j].args + tc.args)]
            else calls + [UpCall(tc.index, tc.id, tc.name, tc.args)]
    decreases |calls|
  {
    if j > 0 {
      AddDeltaAt(calls[1..], tc, j - 1);
    }
  }

  /** Chunks after one that finishes carry neither text nor tool calls. */
  predicate QuietAfterFinish(chunks: seq<Chunk>) {
    forall i, j :: 0 <= i < j < |chunks| && Finishes(chunks[i]) && chunks[j].choices != [] ==>
      chunks[j].choices[0].content == "" && chunks[j].choices[0].toolCalls == []
  }

  // ---- order ----

  /** What an in-order reader of the upstream is in the middle of. */
  datatype Cursor = AtNothing | AtText | AtTool(index: int)

  datatype Reader = Reader(started: bool, cursor: Cursor, seen: set<int>, finished: bool, ok: bool)

  const NewReader := Reader(false, AtNothing, {}, false, true)

  function ReadContent(r: Reader, content: string): Reader {
    if content == "" then r else r.(cursor := AtText, ok := r.ok && !r.finished)
  }

  /** A new index starts a call; more arguments must belong to the call being read. */
  function ReadTool(r: Reader, tc: ToolDelta): Reader {
    if tc.index !in r.seen then r.(cursor := AtTool(tc.index), seen := r.seen + {tc.index}, ok := r.ok && !r.finished)
    else if tc.args == "" then r
    else r.(ok := r.ok && r.cursor == AtTool(tc.index))
  }

  function ReadTools(r: Reader, tcs: seq<ToolDelta>): Reader
    decreases |tcs|
  {
    if tcs == [] then r else ReadTools(ReadTool(r, tcs[0]), tcs[1..])
  }

  function ReadFinish(r: Reader, finish: string): Reader {
    if finish == "" || r.finished then r else r.(cursor := AtNothing, finished := true)
  }

  function ReadChunk(r: Reader, c: Chunk): Reader {
    if c.choices == [] then r
    else
      var ch := c.choices[0];
      ReadFinish(ReadTools(ReadContent(r.(started := true), ch.content), ch.toolCalls), ch.finish)
  }

  function Read(r: Reader, chunks: seq<Chunk>): Reader
    decreases |chunks|
  {
    if chunks == [] then r else ReadChunk(Read(r, chunks[..|chunks| - 1]), chunks[|chunks| - 1])
  }

  /**
   * A finish reason arrives, nothing is said after it, and no tool index is resumed with more
   * arguments once something else has started.
   */
  predicate InOrder(chunks: seq<Chunk>) {
    Read(NewReader, chunks).ok && Read(NewReader, chunks).finished
  }
}
