/** How text and calls of a block list change when a block is added or extended. */
module BlockLists {
  import opened Wire
  import opened Clients

  lemma SetTextBlock(bs: seq<Block>, i: nat, more: string)
    requires i == |bs| - 1 && bs[i].TextBlock?
    ensures var bs' := bs[i := TextBlock(bs[i].text + more)];
            TextOf(bs') == TextOf(bs) + more && CallsOf(bs') == CallsOf(bs)
  {
    var bs' := bs[i := TextBlock(bs[i].text + more)];
    assert bs'[..i] == bs[..i];
    assert TextOf(bs[..i]) + (bs[i].text + more) == TextOf(bs) + more;
  }

  lemma {:induction false} AddBlock(bs: seq<Block>, b: Block)
    ensures TextOf(bs + [b]) == TextOf(bs) + BlockText(b)
    ensures CallsOf(bs + [b]) == CallsOf(bs) + if b.ToolBlock? then [Call(b.id, b.name, b.json)] else []
  {
    assert (bs + [b])[..|bs|] == bs;
  }

  /** Replacing tool block `i` replaces the call of that rank and nothing else. */
  predicate Replaces(bs: seq<Block>, i: nat, b: Block)
    requires i < |bs|
  {
    && |CallsOf(bs[..i])| < |CallsOf(bs)|
    && b.ToolBlock? && CallsOf(bs[i := b]) == CallsOf(bs)[|CallsOf(bs[..i])| := Call(b.id, b.name, b.json)]
    && TextOf(bs[i := b]) == TextOf(bs)
  }

  lemma ReplaceLast(bs: seq<Block>, last: Block, b: Block)
    requires last.ToolBlock? && b.ToolBlock?
    ensures Replaces(bs + [last], |bs|, b)
  {
    assert (bs + [last])[|bs| := b] == bs + [b] && (bs + [last])[..|bs|] == bs;
    AddBlock(bs, last);
    AddBlock(bs, b);
  }

  lemma ReplaceEarlier(bs: seq<Block>, i: nat, b: Block, last: Block)
    requires i < |bs| && Replaces(bs, i, b)
    ensures Replaces(bs + [last], i, b)
  {
    assert (bs + [last])[i := b] == bs[i := b] + [last] && (bs + [last])[..i] == bs[..i];
    AddBlock(bs, last);
    AddBlock(bs[i := b], last);
  }

  lemma {:induction false} ReplaceBlock(bs: seq<Block>, i: nat, b: Block)
    requires i < |bs| && bs[i].ToolBlock? && b.ToolBlock?
    ensures Replaces(bs, i, b)
    decreases |bs|
  {
    var n := |bs| - 1;
    assert bs == bs[..n] + [bs[n]];
    if i == n {
      ReplaceLast(bs[..n], bs[n], b);
    } else {
      ReplaceBlock(bs[..n], i, b);
      ReplaceEarlier(bs[..n], i, b, bs[n]);
    }
  }

  lemma {:induction false} SetToolBlock(bs: seq<Block>, i: nat, b: Block)
    requires i < |bs| && bs[i].ToolBlock? && b.ToolBlock?
    ensures |CallsOf(bs[..i])| < |CallsOf(bs)|
    ensures CallsOf(bs[i := b]) == CallsOf(bs)[|CallsOf(bs[..i])| := Call(b.id, b.name, b.json)]
    ensures TextOf(bs[i := b]) == TextOf(bs)
  {
    ReplaceBlock(bs, i, b);
  }

  lemma {:induction false} SameKindsSameRank(bs: seq<Block>, i: nat, b: Block, n: nat)
    requires i < |bs| && bs[i].ToolBlock? && b.ToolBlock? && n <= |bs|
    ensures |CallsOf(bs[i := b][..n])| == |CallsOf(bs[..n])|
  {
    if i < n {
      assert bs[i := b][..n] == bs[..n][i := b];
      SetToolBlock(bs[..n], i, b);
    } else {
      assert bs[i := b][..n] == bs[..n];
    }
  }
}
