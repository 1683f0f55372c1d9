/**
 * What a reload gives back: the conversation with adjacent assistant messages merged, the identity map it was
 * recorded with, and through both the provider's own context.
 */
module ProviderReload {
  import opened Basics
  import opened ProviderContext
  import opened ProviderMapper
  import opened ProviderRecords

  // ----- What merging means -----

  /** A conversation without its division into assistant messages. */
  datatype Item = OfAssistant(block: Block) | Other(message: Message)

  function BlockItems(bs: seq<Block>): seq<Item> {
    seq(|bs|, i requires 0 <= i < |bs| => OfAssistant(bs[i]))
  }

  function Flat(ms: seq<Message>): seq<Item> {
    if ms == [] then []
    else (if ms[0].Assistant? then BlockItems(ms[0].content) else [Other(ms[0])]) + Flat(ms[1..])
  }

  /** No two assistant messages stand side by side and none is empty. */
  predicate Tight(ms: seq<Message>) {
    && (forall i :: 0 <= i < |ms| && ms[i].Assistant? ==> ms[i].content != [])
    && (forall i :: 0 <= i < |ms| - 1 && ms[i].Assistant? ==> !ms[i + 1].Assistant?)
  }

  lemma {:induction false} FlatConcat(a: seq<Message>, b: seq<Message>)
    ensures Flat(a + b) == Flat(a) + Flat(b)
  {
    if a == [] {
      assert a + b == b;
    } else {
      var head := if a[0].Assistant? then BlockItems(a[0].content) else [Other(a[0])];
      FlatConcat(a[1..], b);
      assert (a + b)[0] == a[0] && (a + b)[1..] == a[1..] + b;
      Associative(head, Flat(a[1..]), Flat(b));
    }
  }

  lemma {:induction false} FlatOne(m: Message)
    ensures Flat([m]) == if m.Assistant? then BlockItems(m.content) else [Other(m)]
  {
    assert [m][1..] == [];
  }

  lemma {:induction false} FlatSnoc(ms: seq<Message>, m: Message)
    ensures Flat(ms + [m]) == Flat(ms) + (if m.Assistant? then BlockItems(m.content) else [Other(m)])
  {
    FlatConcat(ms, [m]);
    FlatOne(m);
  }

  lemma {:induction false} AddBlockFlat(ms: seq<Message>, b: Block)
    requires Tight(ms)
    ensures Tight(AddBlock(ms, b)) && Flat(AddBlock(ms, b)) == Flat(ms) + [OfAssistant(b)]
  {
    hide Flat;
    if ms != [] && ms[|ms| - 1].Assistant? {
      var front, content := ms[..|ms| - 1], ms[|ms| - 1].content;
      assert ms == front + [Assistant(content)];
      FlatSnoc(front, Assistant(content));
      FlatSnoc(front, Assistant(content + [b]));
      assert BlockItems(content + [b]) == BlockItems(content) + [OfAssistant(b)];
      Associative(Flat(front), BlockItems(content), [OfAssistant(b)]);
    } else {
      FlatSnoc(ms, Assistant([b]));
      assert BlockItems([b]) == [OfAssistant(b)];
    }
  }

  lemma {:induction false} AddBlocksFlat(ms: seq<Message>, bs: seq<Block>)
    requires Tight(ms)
    ensures Tight(AddBlocks(ms, bs)) && Flat(AddBlocks(ms, bs)) == Flat(ms) + BlockItems(bs)
    decreases |bs|
  {
    hide Flat;
    hide AddBlock;
    if bs == [] {
      assert Flat(ms) + BlockItems([]) == Flat(ms);
    } else {
      AddBlockFlat(ms, bs[0]);
      AddBlocksFlat(AddBlock(ms, bs[0]), bs[1..]);
      assert BlockItems(bs) == [OfAssistant(bs[0])] + BlockItems(bs[1..]);
      Associative(Flat(ms), [OfAssistant(bs[0])], BlockItems(bs[1..]));
    }
  }

  lemma {:induction false} MergedFlat(done: seq<Message>, ms: seq<Message>)
    requires Tight(done)
    ensures Tight(Merged(done, ms)) && Flat(Merged(done, ms)) == Flat(done) + Flat(ms)
    decreases |ms|
  {
    hide AddBlocks;
    if ms == [] {
      assert Flat(done) + Flat([]) == Flat(done);
    } else {
      var head := if ms[0].Assistant? then BlockItems(ms[0].content) else [Other(ms[0])];
      var next := if ms[0].Assistant? then AddBlocks(done, ms[0].content) else done + [ms[0]];
      if ms[0].Assistant? {
        AddBlocksFlat(done, ms[0].content);
      } else {
        FlatSnoc(done, ms[0]);
      }
      MergedFlat(next, ms[1..]);
      Associative(Flat(done), head, Flat(ms[1..]));
    }
  }

  /** The blocks up to the first other message. */
  function LeadingBlocks(items: seq<Item>): nat {
    if items == [] || items[0].Other? then 0 else 1 + LeadingBlocks(items[1..])
  }

  lemma {:induction false} LeadingOf(bs: seq<Block>, rest: seq<Item>)
    requires rest == [] || rest[0].Other?
    ensures LeadingBlocks(BlockItems(bs) + rest) == |bs|
  {
    var items := BlockItems(bs) + rest;
    if bs == [] {
      assert items == rest;
    } else {
      assert items[0] == OfAssistant(bs[0]) && items[1..] == BlockItems(bs[1..]) + rest;
      LeadingOf(bs[1..], rest);
    }
  }

  lemma {:induction false} TightStart(ms: seq<Message>)
    requires Tight(ms) && ms != []
    ensures Tight(ms[1..])
    ensures Flat(ms) != [] && (Flat(ms)[0].Other? <==> !ms[0].Assistant?)
    ensures ms[0].Assistant? ==> LeadingBlocks(Flat(ms)) == |ms[0].content| <= |Flat(ms)|
    ensures ms[0].Assistant? ==> Flat(ms)[..|ms[0].content|] == BlockItems(ms[0].content)
    ensures ms[0].Assistant? ==> Flat(ms)[|ms[0].content|..] == Flat(ms[1..])
    ensures !ms[0].Assistant? ==> Flat(ms)[0] == Other(ms[0]) && Flat(ms)[1..] == Flat(ms[1..])
    decreases |ms|
  {
    if ms[0].Assistant? {
      if |ms| > 1 { TightStart(ms[1..]); }
      LeadingOf(ms[0].content, Flat(ms[1..]));
    }
  }

  lemma {:induction false} SameBlocks(a: seq<Block>, b: seq<Block>)
    requires BlockItems(a) == BlockItems(b)
    ensures a == b
  {
    assert |a| == |BlockItems(a)| == |b|;
    assert forall i :: 0 <= i < |a| ==> BlockItems(a)[i] == OfAssistant(a[i]) && BlockItems(b)[i] == OfAssistant(b[i]);
  }

  /** A conversation is determined by its blocks and other messages once assistant messages are merged. */
  lemma {:induction false} TightIsUnique(a: seq<Message>, b: seq<Message>)
    requires Tight(a) && Tight(b) && Flat(a) == Flat(b)
    ensures a == b
    decreases |a|
  {
    if a == [] || b == [] {
      if a != [] { TightStart(a); }
      if b != [] { TightStart(b); }
    } else {
      TightStart(a);
      TightStart(b);
      hide Flat;
      hide LeadingBlocks;
      if a[0].Assistant? { SameBlocks(a[0].content, b[0].content); }
      TightIsUnique(a[1..], b[1..]);
      assert a == [a[0]] + a[1..] && b == [b[0]] + b[1..];
    }
  }

  /** Merging gives the one conversation with the same blocks and messages in the same order in which no two
      assistant messages are adjacent and none is empty. */
  lemma {:induction false} MergedIff(ms: seq<Message>, merged: seq<Message>)
    ensures merged == Merged([], ms) <==> Tight(merged) && Flat(merged) == Flat(ms)
  {
    MergedFlat([], ms);
    assert Flat([]) + Flat(ms) == Flat(ms);
    if Tight(merged) && Flat(merged) == Flat(ms) { TightIsUnique(merged, Merged([], ms)); }
  }

  // ----- Merging and translating -----

  lemma {:induction false} RelabelGrown(front: seq<Message>, content: seq<Block>, b: Block, ids: seq<string>,
                                        more: seq<string>)
    requires |ids| == |Uses(front + [Assistant(content)])| && |more| == |BlockUses(b)|
    ensures |Uses(front + [Assistant(content + [b])])| == |ids + more|
    ensures Relabel(front + [Assistant(content + [b])], ids + more)
         == AddBlock(Relabel(front + [Assistant(content)], ids), RelabelBlock(b, more))
  {
    hide Relabel;
    hide RelabelBlocks;
    hide RelabelBlock;
    hide Uses;
    hide BlocksUses;
    hide BlockUses;
    UsesSnoc(front, Assistant(content));
    UsesSnoc(front, Assistant(content + [b]));
    BlocksUsesSnoc(content, b);
    var n := |Uses(front)|;
    var a, part := ids[..n], ids[n..];
    assert ids == a + part;
    RelabelSnoc(front, Assistant(content), a, part);
    RelabelBlocksSnoc(content, b, part, more);
    RelabelSnoc(front, Assistant(content + [b]), a, part + more);
    Associative(a, part, more);
  }

  lemma {:induction false} RelabelStarted(ms: seq<Message>, b: Block, ids: seq<string>, more: seq<string>)
    requires |ids| == |Uses(ms)| && |more| == |BlockUses(b)|
    ensures |Uses(ms + [Assistant([b])])| == |ids + more|
    ensures Relabel(ms + [Assistant([b])], ids + more) == Relabel(ms, ids) + [Assistant([RelabelBlock(b, more)])]
  {
    hide Relabel;
    hide RelabelBlock;
    hide Uses;
    BlocksUsesSnoc([], b);
    assert [] + [b] == [b] && [] + more == more;
    RelabelBlocksSnoc([], b, [], more);
    assert RelabelBlocks([], []) == [] && [] + [RelabelBlock(b, more)] == [RelabelBlock(b, more)];
    UsesSnoc(ms, Assistant([b]));
    RelabelSnoc(ms, Assistant([b]), ids, more);
  }

  lemma {:induction false} RelabelAddBlock(ms: seq<Message>, b: Block, ids: seq<string>, more: seq<string>)
    requires |ids| == |Uses(ms)| && |more| == |BlockUses(b)|
    ensures |Uses(AddBlock(ms, b))| == |ids + more|
    ensures Relabel(AddBlock(ms, b), ids + more) == AddBlock(Relabel(ms, ids), RelabelBlock(b, more))
  {
    hide Relabel;
    hide RelabelBlock;
    hide Uses;
    hide BlockUses;
    LastStays(ms, ids);
    if ms != [] && ms[|ms| - 1].Assistant? {
      var front, content := ms[..|ms| - 1], ms[|ms| - 1].content;
      assert ms == front + [Assistant(content)];
      RelabelGrown(front, content, b, ids, more);
    } else {
      RelabelStarted(ms, b, ids, more);
    }
  }

  lemma {:induction false} LastStays(ms: seq<Message>, ids: seq<string>)
    requires |ids| == |Uses(ms)|
    ensures |Relabel(ms, ids)| == |ms|
    ensures ms != [] ==> (Relabel(ms, ids)[|ms| - 1].Assistant? <==> ms[|ms| - 1].Assistant?)
  {
    if ms != [] {
      var front, last := ms[..|ms| - 1], ms[|ms| - 1];
      var n := |Uses(front)|;
      assert ms == front + [last];
      UsesSnoc(front, last);
      RelabelSnoc(front, last, ids[..n], ids[n..]);
      LastStays(front, ids[..n]);
      assert ids == ids[..n] + ids[n..];
      hide Relabel;
    }
  }

  lemma {:induction false} RelabelAddBlocks(ms: seq<Message>, bs: seq<Block>, ids: seq<string>, more: seq<string>)
    requires |ids| == |Uses(ms)| && |more| == |BlocksUses(bs)|
    ensures |Uses(AddBlocks(ms, bs))| == |ids + more|
    ensures Relabel(AddBlocks(ms, bs), ids + more) == AddBlocks(Relabel(ms, ids), RelabelBlocks(bs, more))
    decreases |bs|
  {
    hide AddBlock;
    hide Relabel;
    hide RelabelBlock;
    hide BlockUses;
    AddBlocksUses(ms, bs);
    if bs == [] {
      assert ids + more == ids && RelabelBlocks(bs, more) == [];
    } else {
      var n := |BlockUses(bs[0])|;
      RelabelBlocksCons(bs, more);
      RelabelAddBlock(ms, bs[0], ids, more[..n]);
      RelabelAddBlocks(AddBlock(ms, bs[0]), bs[1..], ids + more[..n], more[n..]);
      assert ids + more[..n] + more[n..] == ids + more;
      var out := RelabelBlocks(bs, more);
      assert out[0] == RelabelBlock(bs[0], more[..n]) && out[1..] == RelabelBlocks(bs[1..], more[n..]);
    }
  }

  /** The conversation after one more message was merged into it. */
  function MergeOne(done: seq<Message>, m: Message): seq<Message> {
    if m.Assistant? then AddBlocks(done, m.content) else done + [m]
  }

  lemma {:induction false} RelabelMergeOne(done: seq<Message>, m: Message, ids: seq<string>, part: seq<string>)
    requires |ids| == |Uses(done)| && |part| == |MessageUses(m)|
    ensures Uses(MergeOne(done, m)) == Uses(done) + MessageUses(m)
    ensures Relabel(MergeOne(done, m), ids + part) == MergeOne(Relabel(done, ids), RelabelMessage(m, part))
  {
    hide Relabel;
    hide AddBlocks;
    if m.Assistant? {
      AddBlocksUses(done, m.content);
      RelabelAddBlocks(done, m.content, ids, part);
    } else {
      UsesSnoc(done, m);
      RelabelSnoc(done, m, ids, part);
    }
  }

  lemma {:induction false} MergedStep(done: seq<Message>, ms: seq<Message>)
    ensures Merged(done, []) == done
    ensures ms != [] ==> Merged(done, ms) == Merged(MergeOne(done, ms[0]), ms[1..])
  {
  }

  /** Replacing identities and merging assistant messages can be done in either order. */
  lemma {:induction false} RelabelMerged(done: seq<Message>, ms: seq<Message>, ids: seq<string>, more: seq<string>)
    requires |ids| == |Uses(done)| && |more| == |Uses(ms)|
    ensures |Uses(Merged(done, ms))| == |ids + more|
    ensures Relabel(Merged(done, ms), ids + more) == Merged(Relabel(done, ids), Relabel(ms, more))
    decreases |ms|
  {
    hide Relabel;
    hide Merged;
    hide MergeOne;
    hide RelabelMessage;
    hide MessageUses;
    MergedUses(done, ms);
    MergedStep(done, ms);
    if ms == [] {
      RelabelNothing(more);
      MergedStep(Relabel(done, ids), []);
      assert ids + more == ids;
    } else {
      var m, n := ms[0], |MessageUses(ms[0])|;
      RelabelCons(ms, more);
      var out := Relabel(ms, more);
      assert out[0] == RelabelMessage(m, more[..n]) && out[1..] == Relabel(ms[1..], more[n..]);
      MergedStep(Relabel(done, ids), out);
      RelabelMergeOne(done, m, ids, more[..n]);
      RelabelMerged(MergeOne(done, m), ms[1..], ids + more[..n], more[n..]);
      assert ids + more[..n] + more[n..] == ids + more;
    }
  }

  lemma {:induction false} RelabelNothing(ids: seq<string>)
    requires ids == []
    ensures Relabel([], ids) == []
  {
  }

  // ----- Accepted, recorded and read back -----

  ghost predicate Consistent(ids: Ids) { forall id :: id in ids.names <==> id in ids.order }

  /** The identity map lists the identities given out in the order they were first given. */
  lemma {:induction false} IdentifyAllOrder(s: State, uses: seq<Use>, keeps: string -> bool)
    requires Consistent(s.ids)
    ensures var r := IdentifyAll(s, uses, keeps); r.Ok? ==>
              && |r.value.1| == |uses| && Consistent(r.value.0.ids)
              && r.value.0.ids.order == Mentions(s.ids.order, Renamed(uses, r.value.1))
    decreases |uses|
  {
    hide Identify;
    if uses == [] {
      assert Renamed([], []) == [];
    } else {
      IdentifyOrder(s, uses[0], keeps);
      match Identify(s, uses[0], keeps)
      case Err(_) =>
      case Ok((t, id)) =>
        IdentifyAllOrder(t, uses[1..], keeps);
        match IdentifyAll(t, uses[1..], keeps)
        case Err(_) =>
        case Ok((end, rest)) =>
          assert Renamed(uses, [id] + rest) == [Use(uses[0].call, id)] + Renamed(uses[1..], rest);
          MentionsConcat(s.ids.order, [Use(uses[0].call, id)], Renamed(uses[1..], rest));
    }
  }

  lemma {:induction false} IdentifyOrder(s: State, u: Use, keeps: string -> bool)
    requires Consistent(s.ids)
    ensures var r := Identify(s, u, keeps); r.Ok? ==>
              Consistent(r.value.0.ids) && r.value.0.ids.order == Mentions(s.ids.order, [Use(u.call, r.value.1)])
  {
    ChooseKeepsIds(s, u, keeps);
    hide Choose;
    var r := Identify(s, u, keeps);
    if r.Ok? { assert [Use(u.call, r.value.1)][1..] == []; }
  }

  lemma {:induction false} AcceptedForm(ms: seq<Message>, previous: Ids, supply: seq<string>, keeps: string -> bool)
    ensures var r := BaseContextMessages(ms, previous, supply, keeps); r.Ok? ==>
              var c := r.value;
              && (forall u :: u in Uses(c.messages) ==> u.callId in c.toolIds.names)
              && c.toolIds.order == Mentions([], Uses(c.messages)) && Consistent(c.toolIds)
  {
    hide IdentifyAll;
    var s := Begin(previous, supply);
    IdentifyAllNames(s, Uses(ms), keeps);
    IdentifyAllOrder(s, Uses(ms), keeps);
    match IdentifyAll(s, Uses(ms), keeps)
    case Err(_) =>
    case Ok((end, ids)) => RelabelUses(ms, ids);
  }

  /** A context accepted from the provider, recorded and read back gives the same identity map, entry for entry
      and in the same order, and a conversation that translates to what the provider sent with adjacent
      assistant messages merged. Reading it back fails exactly when some identity is malformed. */
  lemma {:induction false} ReloadRestoresContext(ms: seq<Message>, previous: Ids, supply: seq<string>,
                                                 keeps: string -> bool, valid: string -> bool)
    ensures var r := BaseContextMessages(ms, previous, supply, keeps); r.Ok? ==>
              var c := r.value;
              && (forall u :: u in Uses(c.messages) ==> u.callId in c.toolIds.names)
              && var back := FromRecords(Log(c.messages, c.toolIds.names), valid);
              && (back.Ok? <==> forall id :: id in c.toolIds.order ==> valid(id))
              && (back.Ok? ==>
                    && back.value == Context(Merged([], c.messages), c.toolIds)
                    && ProviderContextMessages(back.value.messages, back.value.toolIds.names) == Ok(Merged([], ms)))
  {
    hide BaseContextMessages;
    hide FromRecords;
    hide Log;
    hide Mentions;
    hide ProviderContextMessages;
    var r := BaseContextMessages(ms, previous, supply, keeps);
    AcceptedForm(ms, previous, supply, keeps);
    ProviderRoundTrip(ms, previous, supply, keeps);
    if r.Ok? {
      var c := r.value;
      LogRebuildsConversation(c.messages, c.toolIds.names, valid);
      MentionedAre(c.messages, c.toolIds.order, valid);
      MergedTranslates(c.messages, c.toolIds.names, ms);
      var back := FromRecords(Log(c.messages, c.toolIds.names), valid);
      if back.Ok? {
        SameIds(back.value.toolIds, c.toolIds);
      }
    }
  }

  lemma {:induction false} SameIds(a: Ids, b: Ids)
    requires Holds(a, b.order, b.names) && Consistent(b)
    ensures a == b
  {
    assert a.names.Keys == b.names.Keys;
  }

  lemma {:induction false} MentionedAre(ms: seq<Message>, order: seq<string>, valid: string -> bool)
    requires order == Mentions([], Uses(ms))
    ensures (forall u :: u in Uses(ms) ==> valid(u.callId)) <==> forall id :: id in order ==> valid(id)
  {
    hide Mentions;
    hide Uses;
    MentionsKeeps([], Uses(ms));
    forall u | u in Uses(ms) ensures u.callId in order {
      assert u == Use(true, u.callId) || u == Use(false, u.callId);
    }
  }

  lemma {:induction false} MergedTranslates(ms: seq<Message>, names: map<string, string>, provider: seq<Message>)
    requires ProviderContextMessages(ms, names) == Ok(provider)
    ensures ProviderContextMessages(Merged([], ms), names) == Ok(Merged([], provider))
  {
    hide Relabel;
    hide Merged;
    hide ProviderIds;
    MergedUses([], ms);
    assert [] + Uses(ms) == Uses(ms);
    ProviderIdsLength(Uses(ms), names);
    var ids := ProviderIds(Uses(ms), names).value;
    RelabelMerged([], ms, [], ids);
    RelabelNothing([]);
    assert [] + ids == ids;
  }
}
