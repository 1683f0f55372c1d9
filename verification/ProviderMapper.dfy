/** The translation from the provider as the source performs it, one message and block at a time. */
module ProviderMapper {
  import opened Basics
  import opened ProviderContext

  lemma {:induction false} IdentifyAllConcat(s: State, a: seq<Use>, b: seq<Use>, keeps: string -> bool)
    ensures IdentifyAll(s, a + b, keeps)
         == match IdentifyAll(s, a, keeps)
            case Err(e) => Err(e)
            case Ok((t, ids)) =>
              match IdentifyAll(t, b, keeps)
              case Err(e) => Err(e)
              case Ok((end, more)) => Ok((end, ids + more))
    decreases |a|
  {
    hide Identify;
    if a == [] {
      assert a + b == b;
      match IdentifyAll(s, b, keeps)
      case Err(_) =>
      case Ok((end, more)) => assert [] + more == more;
    } else {
      assert (a + b)[1..] == a[1..] + b;
      match Identify(s, a[0], keeps)
      case Err(_) =>
      case Ok((t, id)) =>
        IdentifyAllConcat(t, a[1..], b, keeps);
        match IdentifyAll(t, a[1..], keeps)
        case Err(_) =>
        case Ok((u, ids)) =>
          match IdentifyAll(u, b, keeps)
          case Err(_) =>
          case Ok((end, more)) => assert [id] + (ids + more) == [id] + ids + more;
    }
  }

  lemma {:induction false} BlocksUsesSnoc(bs: seq<Block>, b: Block)
    ensures BlocksUses(bs + [b]) == BlocksUses(bs) + BlockUses(b)
  {
    if bs == [] {
      assert [] + [b] == [b] && [b][1..] == [];
    } else {
      BlocksUsesSnoc(bs[1..], b);
      assert (bs + [b])[0] == bs[0] && (bs + [b])[1..] == bs[1..] + [b];
      Associative(BlockUses(bs[0]), BlocksUses(bs[1..]), BlockUses(b));
    }
  }

  lemma {:induction false} RelabelBlocksSnoc(bs: seq<Block>, b: Block, ids: seq<string>, more: seq<string>)
    requires |ids| == |BlocksUses(bs)| && |more| == |BlockUses(b)|
    ensures |BlocksUses(bs + [b])| == |ids + more|
    ensures RelabelBlocks(bs + [b], ids + more) == RelabelBlocks(bs, ids) + [RelabelBlock(b, more)]
  {
    hide BlockUses;
    hide RelabelBlock;
    BlocksUsesSnoc(bs, b);
    if bs == [] {
      assert [] + [b] == [b] && [b][1..] == [];
      assert (ids + more)[..|more|] == more && (ids + more)[|more|..] == [];
      assert RelabelBlocks([], []) == [];
    } else {
      var all, out := bs + [b], ids + more;
      var n := |BlockUses(bs[0])|;
      BlocksUsesSnoc(bs[1..], b);
      RelabelBlocksSnoc(bs[1..], b, ids[n..], more);
      assert all[0] == bs[0] && all[1..] == bs[1..] + [b];
      assert out[..n] == ids[..n] && out[n..] == ids[n..] + more;
      RelabelBlocksCons(all, out);
      RelabelBlocksCons(bs, ids);
    }
  }


  lemma {:induction false} UsesSnoc(ms: seq<Message>, m: Message)
    ensures Uses(ms + [m]) == Uses(ms) + MessageUses(m)
  {
    if ms == [] {
      assert [] + [m] == [m] && [m][1..] == [];
    } else {
      UsesSnoc(ms[1..], m);
      assert (ms + [m])[0] == ms[0] && (ms + [m])[1..] == ms[1..] + [m];
      Associative(MessageUses(ms[0]), Uses(ms[1..]), MessageUses(m));
    }
  }

  lemma {:induction false} RelabelSnoc(ms: seq<Message>, m: Message, ids: seq<string>, more: seq<string>)
    requires |ids| == |Uses(ms)| && |more| == |MessageUses(m)|
    ensures |Uses(ms + [m])| == |ids + more|
    ensures Relabel(ms + [m], ids + more) == Relabel(ms, ids) + [RelabelMessage(m, more)]
  {
    hide MessageUses;
    hide RelabelMessage;
    UsesSnoc(ms, m);
    if ms == [] {
      assert [] + [m] == [m] && [m][1..] == [];
      assert (ids + more)[..|more|] == more && (ids + more)[|more|..] == [];
      assert Relabel([], []) == [];
    } else {
      var all, out := ms + [m], ids + more;
      var n := |MessageUses(ms[0])|;
      UsesSnoc(ms[1..], m);
      RelabelSnoc(ms[1..], m, ids[n..], more);
      assert all[0] == ms[0] && all[1..] == ms[1..] + [m];
      assert out[..n] == ids[..n] && out[n..] == ids[n..] + more;
      RelabelCons(all, out);
      RelabelCons(ms, ids);
    }
  }


  /** The maps one acceptance of a provider context updates as it goes. */
  class IdentityMaps {
    const keeps: string -> bool
    var callIds: Queues
    var resultIds: Queues
    var awaiting: Queues
    var toolIds: Ids
    var supply: seq<string>

    ghost function Now(): State
      reads this
    {
      State(callIds, resultIds, awaiting, toolIds, supply)
    }

    constructor (previous: Ids, supply: seq<string>, keeps: string -> bool)
      ensures Now() == Begin(previous, supply) && this.keeps == keeps
    {
      this.keeps, this.supply, awaiting, toolIds := keeps, supply, map[], NO_IDS;
      new;
      callIds := IdsByProvider(previous);
      resultIds := IdsByProvider(previous);
    }

    static method IdsByProvider(previous: Ids) returns (byProvider: Queues)
      ensures byProvider == ByProvider(previous.order, previous.names)
    {
      byProvider := map[];
      var order := previous.order;
      for i := 0 to |order|
        invariant byProvider == ByProvider(order[..i], previous.names)
      {
        assert order[..i + 1][..i] == order[..i];
        if order[i] in previous.names {
          var callId := previous.names[order[i]];
          byProvider := byProvider[callId := Queue(byProvider, callId) + [order[i]]];
        }
      }
      assert order[..|order|] == order;
    }

    method Remember(id: string, callId: string) returns (error: Option<Error>)
      modifies `toolIds
      ensures match ProviderContext.Remember(old(toolIds), id, callId)
              case Err(e) => error == Some(e)
              case Ok(ids) => error == None && toolIds == ids
    {
      if id in toolIds.names {
        return if toolIds.names[id] != callId then Some(DuplicateMapping) else None;
      }
      toolIds := Ids(toolIds.order + [id], toolIds.names[id := callId]);
      return None;
    }

    /** Draws from the generator until it returns an ID that is not in use. */
    method FreshId(callId: string) returns (id: Option<string>)
      modifies `supply
      ensures match Fresh(old(Now()), callId, keeps)
              case Err(e) => id == None && e == OutOfIds
              case Ok((unused, rest)) => id == Some(unused) && supply == rest
    {
      if keeps(callId) && callId !in toolIds.names {
        return Some(callId);
      }
      while |supply| > 0 && supply[0] in toolIds.names
        invariant FirstNew(supply, toolIds.names) == FirstNew(old(supply), toolIds.names)
        decreases |supply|
      {
        supply := supply[1..];
      }
      if |supply| == 0 {
        return None;
      }
      id := Some(supply[0]);
      supply := supply[1..];
    }

    method CallIdentity(callId: string) returns (r: Result<string, Error>)
      modifies this
      ensures match Identify(old(Now()), Use(true, callId), keeps)
              case Err(e) => r == Err(e)
              case Ok((t, id)) => r == Ok(id) && Now() == t
    {
      var id;
      if Queue(callIds, callId) != [] {
        id := callIds[callId][0];
        callIds := callIds[callId := callIds[callId][1..]];
      } else {
        var unused := FreshId(callId);
        if unused.None? {
          return Err(OutOfIds);
        }
        id := unused.value;
      }
      awaiting := awaiting[callId := Queue(awaiting, callId) + [id]];
      var error := Remember(id, callId);
      return if error.Some? then Err(error.value) else Ok(id);
    }

    method ResultIdentity(callId: string) returns (r: Result<string, Error>)
      modifies this
      ensures match Identify(old(Now()), Use(false, callId), keeps)
              case Err(e) => r == Err(e)
              case Ok((t, id)) => r == Ok(id) && Now() == t
    {
      var id;
      if Queue(awaiting, callId) != [] {
        id := awaiting[callId][0];
        awaiting := awaiting[callId := awaiting[callId][1..]];
      } else if Queue(resultIds, callId) != [] {
        id := resultIds[callId][0];
        resultIds := resultIds[callId := resultIds[callId][1..]];
      } else {
        var unused := FreshId(callId);
        if unused.None? {
          return Err(OutOfIds);
        }
        id := unused.value;
      }
      var error := Remember(id, callId);
      return if error.Some? then Err(error.value) else Ok(id);
    }

    /** The identity of a block or tool message that has one. */
    method Identity(u: Use) returns (r: Result<string, Error>)
      modifies this
      ensures match IdentifyAll(old(Now()), [u], keeps)
              case Err(e) => r == Err(e)
              case Ok((t, ids)) => r.Ok? && ids == [r.value] && Now() == t
    {
      hide Identify;
      assert [u][1..] == [];
      if u.call {
        r := CallIdentity(u.callId);
      } else {
        r := ResultIdentity(u.callId);
      }
    }

    method Content(content: seq<Block>) returns (r: Result<seq<Block>, Error>)
      modifies this
      ensures match IdentifyAll(old(Now()), BlocksUses(content), keeps)
              case Err(e) => r == Err(e)
              case Ok((t, ids)) => Now() == t && |ids| == |BlocksUses(content)| && r == Ok(RelabelBlocks(content, ids))
    {
      hide IdentifyAll;
      ghost var start := Now();
      var out: seq<Block> := [];
      ghost var ids: seq<string> := [];
      NothingIdentified(start, keeps);
      var i := 0;
      while i < |content|
        invariant 0 <= i <= |content|
        invariant |ids| == |BlocksUses(content[..i])|
        invariant IdentifyAll(start, BlocksUses(content[..i]), keeps) == Ok((Now(), ids))
        invariant out == RelabelBlocks(content[..i], ids)
      {
        var block := content[i];
        assert content[..i + 1] == content[..i] + [block];
        BlocksUsesSnoc(content[..i], block);
        BlocksUsesSplit(content, i + 1);
        IdentifyAllConcat(start, BlocksUses(content[..i]), BlockUses(block), keeps);
        IdentifyAllConcat(start, BlocksUses(content[..i + 1]), BlocksUses(content[i + 1..]), keeps);
        if block.Text? {
          RelabelBlocksSnoc(content[..i], block, ids, []);
          NothingIdentified(Now(), keeps);
          assert ids + [] == ids;
          out := out + [block];
        } else {
          var id := Identity(Use(block.ToolCall?, block.callId));
          if id.Err? {
            return Err(id.error);
          }
          RelabelBlocksSnoc(content[..i], block, ids, [id.value]);
          ids := ids + [id.value];
          out := out + [if block.ToolCall? then ToolCall(id.value, block.server, block.input)
                        else ToolResult(id.value, block.output)];
        }
        i := i + 1;
      }
      assert content[..|content|] == content;
      return Ok(out);
    }

    method Translated(message: Message) returns (r: Result<Message, Error>)
      modifies this
      ensures match IdentifyAll(old(Now()), MessageUses(message), keeps)
              case Err(e) => r == Err(e)
              case Ok((t, ids)) => Now() == t && |ids| == |MessageUses(message)| && r == Ok(RelabelMessage(message, ids))
    {
      hide IdentifyAll;
      match message
      case Assistant(content) =>
        var mapped := Content(content);
        r := if mapped.Err? then Err(mapped.error) else Ok(Assistant(mapped.value));
      case Tool(callId, output) =>
        var id := Identity(Use(false, callId));
        r := if id.Err? then Err(id.error) else Ok(Tool(id.value, output));
      case _ =>
        NothingIdentified(Now(), keeps);
        r := Ok(message);
    }
  }

  lemma {:induction false} NothingIdentified(s: State, keeps: string -> bool)
    ensures IdentifyAll(s, [], keeps) == Ok((s, []))
  {
  }

  lemma {:induction false} BlocksUsesSplit(bs: seq<Block>, i: nat)
    requires i <= |bs|
    ensures BlocksUses(bs) == BlocksUses(bs[..i]) + BlocksUses(bs[i..])
  {
    if i == 0 {
      assert bs[..0] == [] && bs[0..] == bs;
    } else {
      assert bs[..i][1..] == bs[1..][..i - 1] && bs[1..][i - 1..] == bs[i..];
      BlocksUsesSplit(bs[1..], i - 1);
      Associative(BlockUses(bs[0]), BlocksUses(bs[1..][..i - 1]), BlocksUses(bs[i..]));
    }
  }

  lemma {:induction false} UsesSplit(ms: seq<Message>, i: nat)
    requires i <= |ms|
    ensures Uses(ms) == Uses(ms[..i]) + Uses(ms[i..])
  {
    if i == 0 {
      assert ms[..0] == [] && ms[0..] == ms;
    } else {
      assert ms[..i][1..] == ms[1..][..i - 1] && ms[1..][i - 1..] == ms[i..];
      UsesSplit(ms[1..], i - 1);
      Associative(MessageUses(ms[0]), Uses(ms[1..][..i - 1]), Uses(ms[i..]));
    }
  }

  method AcceptContext(ms: seq<Message>, previous: Ids, supply: seq<string>, keeps: string -> bool)
    returns (r: Result<Canonical, Error>)
    ensures r == BaseContextMessages(ms, previous, supply, keeps)
  {
    hide IdentifyAll;
    hide RelabelMessage;
    hide MessageUses;
    var maps := new IdentityMaps(previous, supply, keeps);
    ghost var start := maps.Now();
    var out: seq<Message> := [];
    ghost var ids: seq<string> := [];
    NothingIdentified(start, keeps);
    var i := 0;
    while i < |ms|
      invariant 0 <= i <= |ms|
      invariant |ids| == |Uses(ms[..i])|
      invariant IdentifyAll(start, Uses(ms[..i]), keeps) == Ok((maps.Now(), ids))
      invariant out == Relabel(ms[..i], ids)
    {
      assert ms[..i + 1] == ms[..i] + [ms[i]];
      UsesSnoc(ms[..i], ms[i]);
      UsesSplit(ms, i + 1);
      IdentifyAllConcat(start, Uses(ms[..i]), MessageUses(ms[i]), keeps);
      IdentifyAllConcat(start, Uses(ms[..i + 1]), Uses(ms[i + 1..]), keeps);
      ghost var step := IdentifyAll(maps.Now(), MessageUses(ms[i]), keeps);
      var message := maps.Translated(ms[i]);
      if message.Err? {
        return Err(message.error);
      }
      RelabelSnoc(ms[..i], ms[i], ids, step.value.1);
      ids := ids + step.value.1;
      out := out + [message.value];
      i := i + 1;
    }
    assert ms[..|ms|] == ms;
    return Ok(Canonical(out, maps.toolIds));
  }
}
