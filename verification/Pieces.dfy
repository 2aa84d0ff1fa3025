/**
 * A message as an ordered list of text and call pieces, and the output array it aggregates to: the
 * calls in order, and one message with all text at the place of the first text piece.
 */
module Pieces {
  import opened Wire
  import opened Folds
  import opened Assembler

  datatype Piece = TextPiece(text: string) | CallPiece(id: string, name: string, args: string) | NoPiece

  function PieceOps(p: Piece): seq<Op> {
    match p
    case TextPiece(t) => [ReserveOp, TextOp(t)]
    case CallPiece(id, name, args) => [CallOp(id, name, args)]
    case NoPiece => []
  }

  /** The assembler after the pieces, in order. */
  function Assembly(id: string, pieces: seq<Piece>): Assembler.Assembly
    decreases |pieces|
  {
    if pieces == [] then Empty(id)
    else Fold(Apply, Assembly(id, pieces[..|pieces| - 1]), PieceOps(pieces[|pieces| - 1]))
  }

  function Texts(pieces: seq<Piece>): string
    decreases |pieces|
  {
    if pieces == [] then ""
    else
      var p := pieces[|pieces| - 1];
      Texts(pieces[..|pieces| - 1]) + if p.TextPiece? then p.text else ""
  }

  function CallsIn(pieces: seq<Piece>): seq<Item>
    decreases |pieces|
  {
    if pieces == [] then []
    else
      var p := pieces[|pieces| - 1];
      CallsIn(pieces[..|pieces| - 1]) + if p.CallPiece? then [CallItem(p.id, p.name, p.args)] else []
  }

  predicate HasText(pieces: seq<Piece>)
    decreases |pieces|
  {
    pieces != [] && (HasText(pieces[..|pieces| - 1]) || pieces[|pieces| - 1].TextPiece?)
  }

  /** The number of calls before the first text piece; all of them when there is none. */
  function Before(pieces: seq<Piece>): (n: nat)
    decreases |pieces|
  {
    if pieces == [] then 0
    else if HasText(pieces[..|pieces| - 1]) then Before(pieces[..|pieces| - 1])
    else Before(pieces[..|pieces| - 1]) + if pieces[|pieces| - 1].CallPiece? then 1 else 0
  }

  lemma {:induction false} BeforeBound(pieces: seq<Piece>)
    ensures Before(pieces) <= |CallsIn(pieces)|
    ensures !HasText(pieces) ==> Before(pieces) == |CallsIn(pieces)| && Texts(pieces) == ""
    decreases |pieces|
  {
    if pieces != [] {
      BeforeBound(pieces[..|pieces| - 1]);
    }
  }

  /** The array the pieces aggregate to. */
  function Aggregate(id: string, pieces: seq<Piece>): (items: seq<Item>) {
    BeforeBound(pieces);
    Placed(MessageItem(id, Texts(pieces)), CallsIn(pieces), HasText(pieces), Before(pieces))
  }

  predicate Agrees(a: Assembler.Assembly, id: string, calls: seq<Item>, text: string, hasText: bool, before: nat) {
    && Holds(a, calls) && a.messageId == id && a.text == text
    && a.textSlot == (if hasText then before else -1)
  }

  lemma {:induction false} AgreesNext(a: Assembler.Assembly, id: string, calls: seq<Item>, text: string, hasText: bool, before: nat, p: Piece)
    requires Agrees(a, id, calls, text, hasText, before) && (!hasText ==> before == |calls|)
    ensures Agrees(Fold(Apply, a, PieceOps(p)), id,
                   calls + (if p.CallPiece? then [CallItem(p.id, p.name, p.args)] else []),
                   text + (if p.TextPiece? then p.text else ""),
                   hasText || p.TextPiece?,
                   if !hasText && p.CallPiece? then before + 1 else before)
  {
    match p
    case NoPiece =>
      assert calls + [] == calls && text + "" == text;
    case CallPiece(id, name, args) =>
      FoldOne(Apply, a, CallOp(id, name, args));
      assert text + "" == text;
    case TextPiece(t) =>
      var ops := PieceOps(p);
      assert ops == [ReserveOp] + [TextOp(t)];
      FoldAppend(Apply, a, [ReserveOp], [TextOp(t)]);
      FoldOne(Apply, a, ReserveOp);
      FoldOne(Apply, a.Reserve(), TextOp(t));
      assert calls + [] == calls;
  }

  lemma {:induction false} AssemblyAgrees(id: string, pieces: seq<Piece>)
    ensures Agrees(Assembly(id, pieces), id, CallsIn(pieces), Texts(pieces), HasText(pieces), Before(pieces))
    decreases |pieces|
  {
    if pieces != [] {
      var before := pieces[..|pieces| - 1];
      AssemblyAgrees(id, before);
      BeforeBound(before);
      AgreesNext(Assembly(id, before), id, CallsIn(before), Texts(before), HasText(before), Before(before), pieces[|pieces| - 1]);
    }
  }

  /** Rendering the assembler gives the aggregate. */
  lemma {:induction false} AssemblyAggregates(id: string, pieces: seq<Piece>)
    ensures Assembly(id, pieces).Valid() && Assembly(id, pieces).Output() == Aggregate(id, pieces)
  {
    AssemblyAgrees(id, pieces);
    BeforeBound(pieces);
    OutputIsPlaced(Assembly(id, pieces), CallsIn(pieces));
  }

  lemma {:induction false} PiecesNext(pieces: seq<Piece>, p: Piece)
    ensures Texts(pieces + [p]) == Texts(pieces) + if p.TextPiece? then p.text else ""
    ensures CallsIn(pieces + [p]) == CallsIn(pieces) + if p.CallPiece? then [CallItem(p.id, p.name, p.args)] else []
    ensures HasText(pieces + [p]) <==> HasText(pieces) || p.TextPiece?
    ensures Before(pieces + [p]) == if !HasText(pieces) && p.CallPiece? then Before(pieces) + 1 else Before(pieces)
  {
    assert (pieces + [p])[..|pieces|] == pieces;
  }

  /** The method every non-streaming and streaming site runs over its pieces. */
  method AssemblePiece(oa: OutputAssembler, p: Piece)
    modifies oa
    ensures oa.View() == Fold(Apply, old(oa.View()), PieceOps(p))
  {
    ghost var a := oa.View();
    match p
    case TextPiece(t) =>
      oa.ReserveTextSlot();
      oa.AddText(t);
      assert PieceOps(p) == [ReserveOp] + [TextOp(t)];
      FoldAppend(Apply, a, [ReserveOp], [TextOp(t)]);
      FoldOne(Apply, a, ReserveOp);
      FoldOne(Apply, a.Reserve(), TextOp(t));
    case CallPiece(id, name, args) =>
      oa.AppendFunctionCall(id, name, args);
      FoldOne(Apply, a, CallOp(id, name, args));
    case NoPiece =>
  }
}
