/** Non-streaming Messages to Responses. */
module MessagesConvert {
  import opened Wire
  import opened Folds
  import opened Assembler
  import opened Pieces

  /** JSON values behind raw text: parsing, printing, and the empty object. */
  datatype Json<!V(==)> = Json(decode: string -> Option<V>, encode: V -> string, isNull: V -> bool, empty: V)

  predicate Absent(raw: string) {
    TrimSpace(raw) == "" || TrimSpace(raw) == "null"
  }

  /** Encoding is faithful, and only null encodes as an absent value. */
  ghost predicate Lawful<V(!new)>(j: Json<V>) {
    && (forall v :: j.decode(j.encode(v)) == Some(v))
    && (forall v :: Absent(j.encode(v)) <==> j.isNull(v))
    && j.encode(j.empty) == "{}" && !j.isNull(j.empty)
  }

  datatype ClaudeBlock = ClaudeBlock(kind: string, text: string, id: string, name: string, input: string)

  datatype ClaudeUsage = ClaudeUsage(input: int, output: int, cacheRead: Option<int>, cacheCreation: Option<int>)

  datatype ClaudeResponse = ClaudeResponse(
    id: string, model: string, content: Option<seq<ClaudeBlock>>, stopReason: string, usage: ClaudeUsage)

  datatype ResponsesResult = ResponsesResult(
    id: string, model: string, status: string, output: seq<Item>, tokens: ResponsesTokens)

  predicate HasContent(raw: string) {
    raw != "" && raw != "null"
  }

  /** Absent input becomes the empty object; present input is re-encoded. */
  function EncodeInput<V>(j: Json<V>, raw: string): string {
    if !HasContent(raw) then j.encode(j.empty)
    else
      match j.decode(raw)
      case Some(v) => j.encode(v)
      case None => "null"
  }

  predicate KnownKind(kind: string) {
    kind == "text" || kind == "tool_use" || kind == "thinking" || kind == "redacted_thinking"
  }

  /** Reasoning has no representation and is omitted. */
  function PieceOf<V>(j: Json<V>, b: ClaudeBlock): Piece {
    if b.kind == "text" then TextPiece(b.text)
    else if b.kind == "tool_use" then CallPiece(b.id, b.name, EncodeInput(j, b.input))
    else NoPiece
  }

  function PiecesOf<V>(j: Json<V>, content: seq<ClaudeBlock>): seq<Piece> {
    seq(|content|, i requires 0 <= i < |content| => PieceOf(j, content[i]))
  }

  lemma PiecesOfLast<V>(j: Json<V>, content: seq<ClaudeBlock>)
    requires content != []
    ensures PiecesOf(j, content) == PiecesOf(j, content[..|content| - 1]) + [PieceOf(j, content[|content| - 1])]
  {
  }

  function TokensOf(u: ClaudeUsage): ResponsesTokens {
    ResponsesTokensFrom(Wrap64(Wrap64(u.input + OrZero(u.cacheRead)) + OrZero(u.cacheCreation)), u.output, u.cacheRead, u.cacheCreation, None)
  }

  /** The result for known block kinds: text aggregated at its first place, calls in order. */
  function Converted<V>(j: Json<V>, r: ClaudeResponse, content: seq<ClaudeBlock>): ResponsesResult {
    ResponsesResult(r.id, r.model, StatusFromClaudeStop(r.stopReason), Aggregate(r.id, PiecesOf(j, content)), TokensOf(r.usage))
  }

  predicate AllKnown(content: seq<ClaudeBlock>) {
    forall i :: 0 <= i < |content| ==> KnownKind(content[i].kind)
  }

  lemma KnownNext(content: seq<ClaudeBlock>, n: nat)
    requires n < |content|
    ensures AllKnown(content[..n + 1]) <==> AllKnown(content[..n]) && KnownKind(content[n].kind)
    ensures AllKnown(content) ==> KnownKind(content[n].kind)
  {
    assert content[..n + 1] == content[..n] + [content[n]];
  }

  /** Fails exactly when the content array is missing or holds a kind Responses cannot represent. */
  method ClaudeToResponses<V>(j: Json<V>, resp: ClaudeResponse) returns (r: Result<ResponsesResult, Failure>)
    ensures r == if resp.content.Some? && AllKnown(resp.content.value) then Ok(Converted(j, resp, resp.content.value)) else Err(Translation)
  {
    if resp.content.None? {
      return Err(Translation);
    }
    var content := resp.content.value;
    var oa := new OutputAssembler(resp.id);
    ghost var pieces := PiecesOf(j, content);
    var n := 0;
    while n < |content|
      invariant 0 <= n <= |content|
      invariant AllKnown(content[..n])
      invariant oa.View() == Pieces.Assembly(resp.id, pieces[..n])
    {
      var blk := content[n];
      KnownNext(content, n);
      if !KnownKind(blk.kind) {
        return Err(Translation);
      }
      AssemblePiece(oa, PieceOf(j, blk));
      assert pieces[..n + 1][..n] == pieces[..n];
      n := n + 1;
    }
    assert content[..n] == content && pieces[..n] == pieces;
    AssemblyAggregates(resp.id, pieces);
    var output := oa.Render();
    r := Ok(ResponsesResult(resp.id, resp.model, StatusFromClaudeStop(resp.stopReason), output, TokensOf(resp.usage)));
  }
}
