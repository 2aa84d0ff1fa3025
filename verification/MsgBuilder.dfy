/** Grouping blocks into alternating-role messages. */
module MsgBuilder {
  import opened Wire
  import opened Folds

  datatype Block =
    | TextBlock(text: string)
    | ImageBlock(source: string)
    | ToolUse(id: string, name: string, input: string)
    | ToolResult(id: string, text: string, blocks: seq<Block>)
    | Thinking(text: string)

  /** One call of `add`. */
  datatype Addition = Addition(key: string, role: string, block: Block)

  datatype Content = Plain(text: string) | Parts(blocks: seq<Block>)

  datatype Message = Message(role: string, content: Content)

  // ---- the builder ----

  /** Blocks collected under one key. */
  datatype Group = Group(key: string, role: string, blocks: seq<Block>)

  /** Whether a block joins the open group. */
  predicate Joins(g: Group, a: Addition) {
    g.key == a.key || (a.role == "user" && g.role == "user")
  }

  /** The groups after the additions, the last one still open. */
  function Groups(adds: seq<Addition>): seq<Group>
    decreases |adds|
  {
    if adds == [] then []
    else
      var gs, a := Groups(adds[..|adds| - 1]), adds[|adds| - 1];
      var n := |gs| - 1;
      if gs != [] && Joins(gs[n], a) then gs[n := gs[n].(blocks := gs[n].blocks + [a.block])]
      else gs + [Group(a.key, a.role, [a.block])]
  }

  /** A single text block becomes a plain string. */
  function Render(g: Group): Message {
    Message(g.role, if |g.blocks| == 1 && g.blocks[0].TextBlock? then Plain(g.blocks[0].text) else Parts(g.blocks))
  }

  function RenderAll(gs: seq<Group>): seq<Message> {
    seq(|gs|, i requires 0 <= i < |gs| => Render(gs[i]))
  }

  class Builder {
    var curKey: string
    var cur: Option<Group>
    var msgs: seq<Message>
    ghost var adds: seq<Addition>
    ghost var closed: bool

    /** The messages are the rendered groups, but for the open one. */
    ghost predicate Valid()
      reads this
    {
      var gs := Groups(adds);
      if closed then cur.None? && msgs == RenderAll(gs)
      else if gs == [] then cur.None? && msgs == [] && adds == []
      else cur == Some(gs[|gs| - 1]) && curKey == cur.value.key && msgs == RenderAll(gs[..|gs| - 1])
    }

    constructor ()
      ensures Valid() && adds == [] && !closed
    {
      curKey, cur, msgs, adds, closed := "", None, [], [], false;
    }

    method Add(key: string, role: string, block: Block)
      requires Valid() && !closed
      modifies this
      ensures Valid() && !closed && adds == old(adds) + [Addition(key, role, block)]
    {
      ghost var gs, a := Groups(adds), Addition(key, role, block);
      GroupsNext(adds, a);
      if cur.None? || (curKey != key && !(role == "user" && cur.value.role == "user")) {
        CloseGroup();
        cur := Some(Group(key, role, []));
        curKey := key;
        assert (gs + [Group(key, role, [block])])[..|gs|] == gs && [] + [block] == [block];
      } else {
        assert gs[|gs| - 1 := gs[|gs| - 1].(blocks := gs[|gs| - 1].blocks + [block])][..|gs| - 1] == gs[..|gs| - 1];
      }
      cur := Some(cur.value.(blocks := cur.value.blocks + [block]));
      adds := adds + [a];
    }

    /** The open group, if any, becomes a message. */
    method CloseGroup()
      requires Valid() && !closed
      modifies this`msgs, this`cur, this`curKey
      ensures cur.None? && curKey == "" && msgs == RenderAll(Groups(adds))
    {
      if cur.Some? {
        RenderLast(Groups(adds));
        msgs := msgs + [Render(cur.value)];
      }
      cur := None;
      curKey := "";
    }

    method Flush()
      requires Valid()
      modifies this
      ensures Valid() && closed && adds == old(adds) && msgs == RenderAll(Groups(adds))
    {
      if cur.Some? {
        CloseGroup();
      }
      closed := true;
    }
  }

  lemma {:induction false} GroupsNext(adds: seq<Addition>, a: Addition)
    ensures var gs := Groups(adds);
            var n := |gs| - 1;
            Groups(adds + [a]) ==
              if gs != [] && Joins(gs[n], a) then gs[n := gs[n].(blocks := gs[n].blocks + [a.block])]
              else gs + [Group(a.key, a.role, [a.block])]
  {
    assert (adds + [a])[..|adds|] == adds;
  }

  lemma RenderLast(gs: seq<Group>)
    requires gs != []
    ensures RenderAll(gs) == RenderAll(gs[..|gs| - 1]) + [Render(gs[|gs| - 1])]
  {
  }

  // ---- what the messages say ----

  function BlocksOf(m: Message): seq<Block> {
    match m.content
    case Plain(t) => [TextBlock(t)]
    case Parts(blocks) => blocks
  }

  /** All blocks in order, each with the role of the message it ended up in. */
  function Flatten(msgs: seq<Message>): seq<(string, Block)>
    decreases |msgs|
  {
    if msgs == [] then []
    else Flatten(msgs[..|msgs| - 1]) + WithRole(msgs[|msgs| - 1].role, BlocksOf(msgs[|msgs| - 1]))
  }

  function WithRole(role: string, blocks: seq<Block>): seq<(string, Block)> {
    seq(|blocks|, i requires 0 <= i < |blocks| => (role, blocks[i]))
  }

  function Added(adds: seq<Addition>): seq<(string, Block)> {
    seq(|adds|, i requires 0 <= i < |adds| => (adds[i].role, adds[i].block))
  }

  predicate Alternates(msgs: seq<Message>) {
    forall i :: 0 <= i < |msgs| - 1 ==> msgs[i].role != msgs[i + 1].role
  }

  /** The addition whose key and role decide whether the next one joins: the first that did not join its own predecessor's. */
  function Opener(adds: seq<Addition>): Option<Addition>
    decreases |adds|
  {
    if adds == [] then None
    else
      var o, a := Opener(adds[..|adds| - 1]), adds[|adds| - 1];
      if o.Some? && (o.value.key == a.key || (a.role == "user" && o.value.role == "user")) then o else Some(a)
  }

  /** Addition `i` has the role of the last opener, not the user's, under another key. */
  predicate Splits(adds: seq<Addition>, i: nat)
    requires i < |adds|
  {
    var o := Opener(adds[..i]);
    o.Some? && o.value.role == adds[i].role && adds[i].role != "user" && o.value.key != adds[i].key
  }

  /** The open group has its opener's key and role. */
  lemma {:induction false} OpenerIsLast(adds: seq<Addition>)
    ensures var gs, o := Groups(adds), Opener(adds);
            && (gs == [] <==> o.None?)
            && (gs != [] ==> gs[|gs| - 1].key == o.value.key && gs[|gs| - 1].role == o.value.role)
    decreases |adds|
  {
    if adds != [] {
      OpenerIsLast(adds[..|adds| - 1]);
    }
  }

  predicate RolesAlternate(gs: seq<Group>) {
    forall i :: 0 <= i < |gs| - 1 ==> gs[i].role != gs[i + 1].role
  }

  predicate NeverSplits(adds: seq<Addition>) {
    forall i :: 0 <= i < |adds| ==> !Splits(adds, i)
  }

  lemma SplitsPrefix(adds: seq<Addition>, n: nat, i: nat)
    requires i < n <= |adds|
    ensures Splits(adds[..n], i) == Splits(adds, i)
  {
    assert adds[..n][..i] == adds[..i];
  }

  lemma AlternateNext(gs: seq<Group>, g: Group)
    ensures RolesAlternate(gs + [g]) <==> RolesAlternate(gs) && (gs != [] ==> gs[|gs| - 1].role != g.role)
  {
    var all := gs + [g];
    assert all[|gs|] == g && forall i :: 0 <= i < |gs| ==> all[i] == gs[i];
    if RolesAlternate(all) && gs != [] {
      assert all[|gs| - 1].role != all[|gs| - 1 + 1].role;
    }
  }

  lemma AlternateSame(gs: seq<Group>, hs: seq<Group>)
    requires |gs| == |hs| && forall i :: 0 <= i < |gs| ==> gs[i].role == hs[i].role
    ensures RolesAlternate(gs) <==> RolesAlternate(hs)
  {
  }

  /** Two adjacent messages have the same role exactly where an addition splits. */
  lemma {:induction false} AlternateIffNeverSplits(adds: seq<Addition>)
    ensures RolesAlternate(Groups(adds)) <==> NeverSplits(adds)
    decreases |adds|
  {
    if adds != [] {
      var n := |adds| - 1;
      var before, a := adds[..n], adds[n];
      AlternateIffNeverSplits(before);
      forall i | 0 <= i < n ensures Splits(before, i) == Splits(adds, i) {
        SplitsPrefix(adds, n, i);
      }
      assert adds == before + [a];
      GroupsNext(before, a);
      OpenerIsLast(before);
      var gs := Groups(before);
      if gs != [] && Joins(gs[|gs| - 1], a) {
        AlternateSame(gs, Groups(adds));
      } else {
        AlternateNext(gs, Group(a.key, a.role, [a.block]));
      }
      NeverSplitsLast(adds);
    }
  }

  lemma NeverSplitsLast(adds: seq<Addition>)
    requires adds != []
    ensures NeverSplits(adds) <==> NeverSplits(adds[..|adds| - 1]) && !Splits(adds, |adds| - 1)
  {
    var n := |adds| - 1;
    forall i | 0 <= i < n ensures Splits(adds[..n], i) == Splits(adds, i) {
      SplitsPrefix(adds, n, i);
    }
  }

  // ---- keys that go with roles ----

  /** A key names one role, and every role but the user's has one key. */
  predicate Coherent(adds: seq<Addition>) {
    forall i, j :: 0 <= i < |adds| && 0 <= j < |adds| ==>
      && (adds[i].key == adds[j].key ==> adds[i].role == adds[j].role)
      && (adds[i].role == adds[j].role && adds[i].role != "user" ==> adds[i].key == adds[j].key)
  }

  /** Every group's key and role come from some addition. */
  predicate FromAdds(adds: seq<Addition>, gs: seq<Group>) {
    forall i :: 0 <= i < |gs| ==> exists j :: 0 <= j < |adds| && adds[j].key == gs[i].key && adds[j].role == gs[i].role
  }

  lemma {:induction false} GroupsFromAdds(adds: seq<Addition>)
    ensures FromAdds(adds, Groups(adds))
    decreases |adds|
  {
    if adds != [] {
      var n := |adds| - 1;
      var before, a := adds[..n], adds[n];
      GroupsFromAdds(before);
      var gs, all := Groups(before), Groups(adds);
      forall i | 0 <= i < |all| ensures exists j :: 0 <= j < |adds| && adds[j].key == all[i].key && adds[j].role == all[i].role {
        if i < |gs| {
          var j :| 0 <= j < |before| && before[j].key == gs[i].key && before[j].role == gs[i].role;
          assert adds[j] == before[j];
        } else {
          assert adds[n].key == all[i].key;
        }
      }
    }
  }

  lemma CoherentNeverSplits(adds: seq<Addition>)
    requires Coherent(adds)
    ensures NeverSplits(adds)
  {
    forall i | 0 <= i < |adds| ensures !Splits(adds, i) {
      var gs := Groups(adds[..i]);
      OpenerIsLast(adds[..i]);
      GroupsFromAdds(adds[..i]);
      if gs != [] {
        var j :| 0 <= j < i && adds[..i][j].key == gs[|gs| - 1].key && adds[..i][j].role == gs[|gs| - 1].role;
        assert adds[..i][j] == adds[j];
      }
    }
  }

  function FlattenGroups(gs: seq<Group>): seq<(string, Block)>
    decreases |gs|
  {
    if gs == [] then [] else FlattenGroups(gs[..|gs| - 1]) + WithRole(gs[|gs| - 1].role, gs[|gs| - 1].blocks)
  }

  lemma {:induction false} RenderFlattens(gs: seq<Group>)
    ensures Flatten(RenderAll(gs)) == FlattenGroups(gs)
    decreases |gs|
  {
    if gs != [] {
      var n := |gs| - 1;
      RenderFlattens(gs[..n]);
      RenderLast(gs);
      assert RenderAll(gs)[..n] == RenderAll(gs[..n]);
      assert BlocksOf(Render(gs[n])) == gs[n].blocks;
    }
  }

  lemma {:induction false} FlattenGroupsNext(gs: seq<Group>, g: Group)
    ensures FlattenGroups(gs + [g]) == FlattenGroups(gs) + WithRole(g.role, g.blocks)
  {
    assert (gs + [g])[..|gs|] == gs;
  }

  lemma WithRoleNext(role: string, blocks: seq<Block>, b: Block)
    ensures WithRole(role, blocks + [b]) == WithRole(role, blocks) + [(role, b)]
  {
  }

  /** When the addition's role is that of the group it joins, nothing is lost or moved. */
  lemma {:induction false} FlattenAdd(adds: seq<Addition>, a: Addition)
    requires var gs := Groups(adds); gs != [] && Joins(gs[|gs| - 1], a) ==> gs[|gs| - 1].role == a.role
    ensures FlattenGroups(Groups(adds + [a])) == FlattenGroups(Groups(adds)) + [(a.role, a.block)]
  {
    var gs := Groups(adds);
    GroupsNext(adds, a);
    if gs != [] && Joins(gs[|gs| - 1], a) {
      var n := |gs| - 1;
      var g := gs[n];
      var g' := g.(blocks := g.blocks + [a.block]);
      assert gs == gs[..n] + [g] && gs[n := g'] == gs[..n] + [g'];
      FlattenGroupsNext(gs[..n], g);
      FlattenGroupsNext(gs[..n], g');
      WithRoleNext(g.role, g.blocks, a.block);
      Assoc(FlattenGroups(gs[..n]), WithRole(g.role, g.blocks), [(a.role, a.block)]);
    } else {
      FlattenGroupsNext(gs, Group(a.key, a.role, [a.block]));
      assert WithRole(a.role, [a.block]) == [(a.role, a.block)];
    }
  }

  lemma AddedNext(adds: seq<Addition>, a: Addition)
    ensures Added(adds + [a]) == Added(adds) + [(a.role, a.block)]
  {
  }

  lemma {:induction false} CoherentFlattens(adds: seq<Addition>)
    requires Coherent(adds)
    ensures FlattenGroups(Groups(adds)) == Added(adds)
    decreases |adds|
  {
    if adds != [] {
      var n := |adds| - 1;
      var before, a := adds[..n], adds[n];
      assert forall i :: 0 <= i < n ==> before[i] == adds[i];
      CoherentFlattens(before);
      JoinsSameRole(adds, n);
      FlattenAdd(before, a);
      AddedNext(before, a);
      assert adds == before + [a];
    }
  }

  lemma JoinsSameRole(adds: seq<Addition>, n: nat)
    requires Coherent(adds) && n < |adds|
    ensures var gs := Groups(adds[..n]); gs != [] && Joins(gs[|gs| - 1], adds[n]) ==> gs[|gs| - 1].role == adds[n].role
  {
    var gs := Groups(adds[..n]);
    GroupsFromAdds(adds[..n]);
    if gs != [] && Joins(gs[|gs| - 1], adds[n]) {
      var j :| 0 <= j < n && adds[..n][j].key == gs[|gs| - 1].key && adds[..n][j].role == gs[|gs| - 1].role;
      assert adds[..n][j] == adds[j];
    }
  }

  lemma RenderedRoles(gs: seq<Group>)
    ensures Alternates(RenderAll(gs)) <==> RolesAlternate(gs)
  {
    assert forall i :: 0 <= i < |gs| ==> RenderAll(gs)[i].role == gs[i].role;
  }

  /**
   * Arbitrary additions: messages alternate if and only if no addition has the role of the last opener,
   * other than the user's, under another key.
   */
  lemma {:induction false} AlternatesIff(adds: seq<Addition>)
    ensures Alternates(RenderAll(Groups(adds))) <==> NeverSplits(adds)
  {
    AlternateIffNeverSplits(adds);
    RenderedRoles(Groups(adds));
  }

  /** With keys that go with roles: no two adjacent messages of one role, and the blocks added, in order, each under its role. */
  lemma {:induction false} CoherentBuild(adds: seq<Addition>)
    requires Coherent(adds)
    ensures Alternates(RenderAll(Groups(adds))) && Flatten(RenderAll(Groups(adds))) == Added(adds)
  {
    CoherentNeverSplits(adds);
    AlternatesIff(adds);
    CoherentFlattens(adds);
    RenderFlattens(Groups(adds));
  }

  lemma {:induction false} GroupsHold(adds: seq<Addition>)
    ensures forall i :: 0 <= i < |Groups(adds)| ==> Groups(adds)[i].blocks != []
    decreases |adds|
  {
    if adds != [] {
      GroupsHold(adds[..|adds| - 1]);
    }
  }

  /** Every message built holds something, and is a plain string exactly when that is one text block. */
  lemma {:induction false} LoneTextIsPlain(adds: seq<Addition>, i: nat)
    requires i < |RenderAll(Groups(adds))|
    ensures var m := RenderAll(Groups(adds))[i];
            && BlocksOf(m) != []
            && (m.content.Plain? <==> |BlocksOf(m)| == 1 && BlocksOf(m)[0].TextBlock?)
  {
    GroupsHold(adds);
    assert Groups(adds)[i].blocks != [];
  }

  // ---- the keys in use ----

  /** The keys the request translations use. */
  predicate Standard(a: Addition) {
    || (a.key == "assistant" && a.role == "assistant")
    || (a.key == "user" && a.role == "user")
    || (a.key == "user:tool" && a.role == "user")
  }

  lemma StandardIsCoherent(adds: seq<Addition>)
    requires forall i :: 0 <= i < |adds| ==> Standard(adds[i])
    ensures Coherent(adds)
  {
    assert |"user"| == 4 && |"assistant"| == 9 && |"user:tool"| == 9;
    assert "user:tool"[0] != "assistant"[0];
  }
}
