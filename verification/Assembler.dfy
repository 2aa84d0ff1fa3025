/** Aggregation of Responses output items: one message item plus function calls in arrival order. */
module Assembler {
  import opened Wire
  import opened Folds

  /** The assembler's state as a value; a hole marks the position reserved for the message. */
  datatype Assembly = Assembly(messageId: string, items: seq<Option<Item>>, textSlot: int, text: string) {

    /** At most the reserved slot is a hole. */
    predicate Valid() {
      && -1 <= textSlot < |items|
      && forall i :: 0 <= i < |items| && i != textSlot ==> items[i].Some?
    }

    function Reserve(): Assembly {
      if textSlot >= 0 then this else this.(textSlot := |items|, items := items + [None])
    }

    function AddText(fragment: string): Assembly {
      this.(text := text + fragment)
    }

    function AppendCall(callId: string, name: string, args: string): Assembly {
      this.(items := items + [Some(CallItem(callId, name, args))])
    }

    function Message(): Item {
      MessageItem(messageId, text)
    }

    /** The state after rendering: the slot is filled, or the message leads when there is text but no slot. */
    function Rendered(): (r: Assembly)
      requires Valid()
      ensures forall i :: 0 <= i < |r.items| ==> r.items[i].Some?
    {
      if textSlot >= 0 then this.(items := items[textSlot := Some(Message())])
      else if text != "" then this.(items := [Some(Message())] + items)
      else this
    }

    function Output(): seq<Item>
      requires Valid()
    {
      var r := Rendered().items;
      seq(|r|, i requires 0 <= i < |r| => r[i].value)
    }
  }

  function Empty(messageId: string): Assembly {
    Assembly(messageId, [], -1, "")
  }

  class OutputAssembler {
    const messageId: string
    var items: seq<Option<Item>>
    var textSlot: int
    var text: string

    function View(): Assembly
      reads this
    {
      Assembly(messageId, items, textSlot, text)
    }

    constructor (messageId: string)
      ensures View() == Empty(messageId)
    {
      this.messageId := messageId;
      items := [];
      textSlot := -1;
      text := "";
    }

    method ReserveTextSlot()
      modifies this
      ensures View() == old(View()).Reserve()
    {
      if textSlot >= 0 {
        return;
      }
      textSlot := |items|;
      items := items + [None];
    }

    method AddText(fragment: string)
      modifies this
      ensures View() == old(View()).AddText(fragment)
    {
      text := text + fragment;
    }

    method AppendFunctionCall(callId: string, name: string, args: string)
      modifies this
      ensures View() == old(View()).AppendCall(callId, name, args)
    {
      items := items + [Some(CallItem(callId, name, args))];
    }

    method Render() returns (output: seq<Item>)
      requires View().Valid()
      modifies this
      ensures View() == old(View()).Rendered()
      ensures output == old(View()).Output()
    {
      if text != "" || textSlot >= 0 {
        var msg := MessageItem(messageId, text);
        if textSlot >= 0 {
          items := items[textSlot := Some(msg)];
        } else {
          items := [Some(msg)] + items;
        }
      }
      output := seq(|items|, i requires 0 <= i < |items| reads this requires items[i].Some? => items[i].value);
    }
  }

  // ---- where the message ends up ----

  datatype Op = ReserveOp | TextOp(fragment: string) | CallOp(callId: string, name: string, args: string)

  function Apply(a: Assembly, op: Op): Assembly {
    match op
    case ReserveOp => a.Reserve()
    case TextOp(s) => a.AddText(s)
    case CallOp(id, n, x) => a.AppendCall(id, n, x)
  }

  function Calls(ops: seq<Op>): seq<Item>
    decreases |ops|
  {
    if ops == [] then [] else CallOf(ops[0]) + Calls(ops[1..])
  }

  function Text(ops: seq<Op>): string
    decreases |ops|
  {
    if ops == [] then "" else TextOf(ops[0]) + Text(ops[1..])
  }

  /** The calls that precede the first reservation; all calls when there is none. */
  function CallsBeforeSlot(ops: seq<Op>): seq<Item>
    decreases |ops|
  {
    if ops == [] || ops[0].ReserveOp? then []
    else CallOf(ops[0]) + CallsBeforeSlot(ops[1..])
  }

  /**
   * For every sequence of operations: the calls keep their order; a reservation pins the message
   * right after the calls made before it, even when its text stays empty; without a reservation
   * the message leads, and only when there is text.
   */
  lemma {:induction false} Placement(messageId: string, ops: seq<Op>)
    ensures Fold(Apply, Empty(messageId), ops).Valid() && CallsBeforeSlot(ops) <= Calls(ops)
    ensures Fold(Apply, Empty(messageId), ops).Output() == Placed(
              MessageItem(messageId, Text(ops)), Calls(ops), ReserveOp in ops, |CallsBeforeSlot(ops)|)
  {
    BeforeSlotIsPrefix(ops);
    HoldsFrom(Empty(messageId), [], ops);
    SlotFrom(Empty(messageId), ops);
    assert [] + Calls(ops) == Calls(ops);
    assert "" + Text(ops) == Text(ops);
    OutputIsPlaced(Fold(Apply, Empty(messageId), ops), Calls(ops));
  }

  function Placed(msg: Item, calls: seq<Item>, reserved: bool, slot: nat): seq<Item>
    requires slot <= |calls| && msg.MessageItem?
  {
    if reserved then calls[..slot] + [msg] + calls[slot..]
    else if msg.text != "" then [msg] + calls
    else calls
  }

  /** The items without the hole are `calls`. */
  predicate Holds(a: Assembly, calls: seq<Item>) {
    && -1 <= a.textSlot <= |calls|
    && |a.items| == |calls| + (if a.textSlot >= 0 then 1 else 0)
    && forall i :: 0 <= i < |calls| ==> a.items[if 0 <= a.textSlot <= i then i + 1 else i] == Some(calls[i])
  }

  lemma HoldsIsValid(a: Assembly, calls: seq<Item>)
    requires Holds(a, calls)
    ensures a.Valid()
  {
    forall i | 0 <= i < |a.items| && i != a.textSlot ensures a.items[i].Some? {
      var j := if 0 <= a.textSlot < i then i - 1 else i;
      assert a.items[if 0 <= a.textSlot <= j then j + 1 else j] == Some(calls[j]);
    }
  }

  lemma OutputIsPlaced(a: Assembly, calls: seq<Item>)
    requires Holds(a, calls)
    ensures a.Valid()
    ensures a.Output() == Placed(a.Message(), calls, a.textSlot >= 0, if a.textSlot >= 0 then a.textSlot else 0)
  {
    HoldsIsValid(a, calls);
    var out := a.Output();
    var want := Placed(a.Message(), calls, a.textSlot >= 0, if a.textSlot >= 0 then a.textSlot else 0);
    assert |out| == |want|;
    forall i | 0 <= i < |out| ensures out[i] == want[i] {
      if 0 <= a.textSlot {
        if i != a.textSlot {
          var j := if a.textSlot < i then i - 1 else i;
          assert a.items[if 0 <= a.textSlot <= j then j + 1 else j] == Some(calls[j]);
        }
      } else if a.text == "" {
        assert a.items[i] == Some(calls[i]);
      } else if i > 0 {
        assert a.items[i - 1] == Some(calls[i - 1]);
      }
    }
  }

  lemma {:induction false} BeforeSlotIsPrefix(ops: seq<Op>)
    ensures CallsBeforeSlot(ops) <= Calls(ops)
    ensures ReserveOp !in ops ==> CallsBeforeSlot(ops) == Calls(ops)
    decreases |ops|
  {
    if ops != [] && !ops[0].ReserveOp? {
      BeforeSlotIsPrefix(ops[1..]);
    }
  }

  function CallOf(op: Op): seq<Item> {
    if op.CallOp? then [CallItem(op.callId, op.name, op.args)] else []
  }

  function TextOf(op: Op): string {
    if op.TextOp? then op.fragment else ""
  }

  lemma HoldsStep(a: Assembly, calls: seq<Item>, op: Op)
    requires Holds(a, calls)
    ensures var b := Apply(a, op);
            b.messageId == a.messageId && b.text == a.text + TextOf(op) && Holds(b, calls + CallOf(op))
  {
    assert a.text + "" == a.text && calls + [] == calls;
  }

  lemma {:induction false} HoldsFrom(a: Assembly, calls: seq<Item>, ops: seq<Op>)
    requires Holds(a, calls)
    ensures var b := Fold(Apply, a, ops);
            b.messageId == a.messageId && b.text == a.text + Text(ops) && Holds(b, calls + Calls(ops))
    decreases |ops|
  {
    if ops == [] {
      assert calls + [] == calls && a.text + "" == a.text;
    } else {
      HoldsStep(a, calls, ops[0]);
      HoldsFrom(Apply(a, ops[0]), calls + CallOf(ops[0]), ops[1..]);
      Assoc(calls, CallOf(ops[0]), Calls(ops[1..]));
      Assoc(a.text, TextOf(ops[0]), Text(ops[1..]));
    }
  }

  lemma {:induction false} SlotFrom(a: Assembly, ops: seq<Op>)
    requires a.textSlot >= -1
    ensures var b := Fold(Apply, a, ops);
            b.textSlot == (
              if a.textSlot >= 0 then a.textSlot
              else if ReserveOp in ops then |a.items| + |CallsBeforeSlot(ops)|
              else -1)
    decreases |ops|
  {
    if ops != [] {
      SlotFrom(Apply(a, ops[0]), ops[1..]);
      assert ReserveOp in ops <==> ops[0].ReserveOp? || ReserveOp in ops[1..];
    }
  }
}
