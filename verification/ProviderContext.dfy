/**
 * Tool identities at the provider boundary: provider call IDs inside provider contexts, base IDs
 * everywhere else (AgentProviderContext.ts).
 */
module ProviderContext {
  import opened Basics

  datatype Block =
    | ToolCall(callId: string, server: bool, input: string)
    | ToolResult(callId: string, output: string)
    | Text(text: string)

  datatype Message =
    | Assistant(content: seq<Block>)
    | Tool(callId: string, output: string)
    | User(parts: seq<string>)
    | Instruction(text: string)

  datatype Error = DuplicateMapping | MissingProviderId | MissingBaseId | OutOfIds

  // ----- Identity uses, in the order a context mentions them -----

  datatype Use = Use(call: bool, callId: string)

  function BlockUses(b: Block): seq<Use> {
    match b
    case ToolCall(id, _, _) => [Use(true, id)]
    case ToolResult(id, _) => [Use(false, id)]
    case Text(_) => []
  }

  function BlocksUses(bs: seq<Block>): seq<Use> {
    if bs == [] then [] else BlockUses(bs[0]) + BlocksUses(bs[1..])
  }

  function MessageUses(m: Message): seq<Use> {
    match m
    case Assistant(content) => BlocksUses(content)
    case Tool(id, _) => [Use(false, id)]
    case _ => []
  }

  function Uses(ms: seq<Message>): seq<Use> {
    if ms == [] then [] else MessageUses(ms[0]) + Uses(ms[1..])
  }

  function RelabelBlock(b: Block, ids: seq<string>): Block
    requires |ids| == |BlockUses(b)|
  {
    match b
    case ToolCall(_, server, input) => ToolCall(ids[0], server, input)
    case ToolResult(_, output) => ToolResult(ids[0], output)
    case Text(_) => b
  }

  function RelabelBlocks(bs: seq<Block>, ids: seq<string>): seq<Block>
    requires |ids| == |BlocksUses(bs)|
  {
    if bs == [] then []
    else
      var n := |BlockUses(bs[0])|;
      [RelabelBlock(bs[0], ids[..n])] + RelabelBlocks(bs[1..], ids[n..])
  }

  function RelabelMessage(m: Message, ids: seq<string>): Message
    requires |ids| == |MessageUses(m)|
  {
    match m
    case Assistant(content) => Assistant(RelabelBlocks(content, ids))
    case Tool(_, output) => Tool(ids[0], output)
    case _ => m
  }

  /** The same context with its identities replaced, in order of mention. */
  function Relabel(ms: seq<Message>, ids: seq<string>): seq<Message>
    requires |ids| == |Uses(ms)|
  {
    if ms == [] then []
    else
      var n := |MessageUses(ms[0])|;
      [RelabelMessage(ms[0], ids[..n])] + Relabel(ms[1..], ids[n..])
  }

  // ----- Translation to the provider -----

  /** The provider IDs of `uses`, or an error if one has none. */
  function ProviderIds(uses: seq<Use>, names: map<string, string>): Result<seq<string>, Error> {
    if uses == [] then Ok([])
    else if uses[0].callId !in names then Err(MissingProviderId)
    else
      match ProviderIds(uses[1..], names)
      case Err(e) => Err(e)
      case Ok(rest) => Ok([names[uses[0].callId]] + rest)
  }

  lemma {:induction false} ProviderIdsLength(uses: seq<Use>, names: map<string, string>)
    ensures var r := ProviderIds(uses, names); r.Ok? ==>
              |r.value| == |uses|
              && forall i :: 0 <= i < |uses| ==> uses[i].callId in names && r.value[i] == names[uses[i].callId]
  {
    if uses != [] && uses[0].callId in names {
      ProviderIdsLength(uses[1..], names);
    }
  }

  function ProviderContextMessages(ms: seq<Message>, names: map<string, string>): Result<seq<Message>, Error> {
    var ids := ProviderIds(Uses(ms), names);
    ProviderIdsLength(Uses(ms), names);
    if ids.Err? then Err(ids.error) else Ok(Relabel(ms, ids.value))
  }

  // ----- Translation from the provider -----

  /** A map that remembers the order its keys were first set in. */
  datatype Ids = Ids(order: seq<string>, names: map<string, string>) {
    predicate Valid() {
      && (forall id :: id in order ==> id in names)
      && (forall id :: id in names ==> id in order)
      && (forall i, j :: 0 <= i < j < |order| ==> order[i] != order[j])
    }
  }

  const NO_IDS := Ids([], map[])

  /** The base IDs of one provider ID, oldest first. */
  function Named(order: seq<string>, names: map<string, string>, callId: string): seq<string> {
    if order == [] then []
    else (if order[0] in names && names[order[0]] == callId then [order[0]] else [])
         + Named(order[1..], names, callId)
  }

  type Queues = map<string, seq<string>>

  function Queue(m: Queues, c: string): seq<string> {
    if c in m then m[c] else []
  }

  /** `supply` is what the ID generator will return next, `keeps` the provider IDs that may stay as they are. */
  datatype State = State(
    callIds: Queues,
    resultIds: Queues,
    awaiting: Queues,
    ids: Ids,
    supply: seq<string>)

  function FirstNew(supply: seq<string>, names: map<string, string>): Option<seq<string>> {
    if supply == [] then None
    else if supply[0] in names then FirstNew(supply[1..], names)
    else Some(supply)
  }

  /** An unused ID and what remains of the generator. */
  function Fresh(s: State, c: string, keeps: string -> bool): Result<(string, seq<string>), Error> {
    if keeps(c) && c !in s.ids.names then Ok((c, s.supply))
    else
      match FirstNew(s.supply, s.ids.names)
      case None => Err(OutOfIds)
      case Some(rest) => if rest == [] then Err(OutOfIds) else Ok((rest[0], rest[1..]))
  }

  function Remember(ids: Ids, id: string, c: string): Result<Ids, Error> {
    if id in ids.names then
      if ids.names[id] != c then Err(DuplicateMapping) else Ok(ids)
    else Ok(Ids(ids.order + [id], ids.names[id := c]))
  }

  /** The ID a use will get and the state before it is remembered. */
  function Choose(s: State, u: Use, keeps: string -> bool): Result<(State, string), Error> {
    var c := u.callId;
    if u.call && Queue(s.callIds, c) != [] then
      Ok((s.(callIds := s.callIds[c := s.callIds[c][1..]]), s.callIds[c][0]))
    else if !u.call && Queue(s.awaiting, c) != [] then
      Ok((s.(awaiting := s.awaiting[c := s.awaiting[c][1..]]), s.awaiting[c][0]))
    else if !u.call && Queue(s.resultIds, c) != [] then
      Ok((s.(resultIds := s.resultIds[c := s.resultIds[c][1..]]), s.resultIds[c][0]))
    else
      match Fresh(s, c, keeps)
      case Err(e) => Err(e)
      case Ok((id, rest)) => Ok((s.(supply := rest), id))
  }

  function Identify(s: State, u: Use, keeps: string -> bool): Result<(State, string), Error> {
    match Choose(s, u, keeps)
    case Err(e) => Err(e)
    case Ok((t, id)) =>
      match Remember(t.ids, id, u.callId)
      case Err(e) => Err(e)
      case Ok(ids) =>
        var awaiting := if u.call then t.awaiting[u.callId := Queue(t.awaiting, u.callId) + [id]] else t.awaiting;
        Ok((t.(ids := ids, awaiting := awaiting), id))
  }

  function IdentifyAll(s: State, uses: seq<Use>, keeps: string -> bool): Result<(State, seq<string>), Error>
    decreases |uses|
  {
    if uses == [] then Ok((s, []))
    else
      match Identify(s, uses[0], keeps)
      case Err(e) => Err(e)
      case Ok((t, id)) =>
        match IdentifyAll(t, uses[1..], keeps)
        case Err(e) => Err(e)
        case Ok((end, rest)) => Ok((end, [id] + rest))
  }

  /** Provider IDs and their base IDs, as the queues a new pass draws from. */
  function ByProvider(order: seq<string>, names: map<string, string>): Queues {
    if order == [] then map[]
    else
      var rest := ByProvider(order[..|order| - 1], names);
      var id := order[|order| - 1];
      if id in names then rest[names[id] := Queue(rest, names[id]) + [id]] else rest
  }

  function Begin(previous: Ids, supply: seq<string>): State {
    var queues := ByProvider(previous.order, previous.names);
    State(queues, queues, map[], NO_IDS, supply)
  }

  lemma {:induction false} IdentifyAllLength(s: State, uses: seq<Use>, keeps: string -> bool)
    ensures var r := IdentifyAll(s, uses, keeps); r.Ok? ==> |r.value.1| == |uses|
    decreases |uses|
  {
    hide Identify;
    if uses != [] {
      match Identify(s, uses[0], keeps)
      case Err(_) =>
      case Ok((t, id)) => IdentifyAllLength(t, uses[1..], keeps);
    }
  }

  datatype Canonical = Canonical(messages: seq<Message>, toolIds: Ids)

  function BaseContextMessages(ms: seq<Message>, previous: Ids, supply: seq<string>, keeps: string -> bool)
    : Result<Canonical, Error>
  {
    IdentifyAllLength(Begin(previous, supply), Uses(ms), keeps);
    match IdentifyAll(Begin(previous, supply), Uses(ms), keeps)
    case Err(e) => Err(e)
    case Ok((end, ids)) => Ok(Canonical(Relabel(ms, ids), end.ids))
  }

  // ----- Round trip -----

  lemma {:induction false} RelabelBlocksCons(bs: seq<Block>, ids: seq<string>)
    requires bs != [] && |ids| == |BlocksUses(bs)|
    ensures var n := |BlockUses(bs[0])|;
            && n + |BlocksUses(bs[1..])| == |ids|
            && RelabelBlocks(bs, ids) == [RelabelBlock(bs[0], ids[..n])] + RelabelBlocks(bs[1..], ids[n..])
  {
  }
  lemma {:induction false} RelabelCons(ms: seq<Message>, ids: seq<string>)
    requires ms != [] && |ids| == |Uses(ms)|
    ensures var n := |MessageUses(ms[0])|;
            && n + |Uses(ms[1..])| == |ids|
            && Relabel(ms, ids) == [RelabelMessage(ms[0], ids[..n])] + Relabel(ms[1..], ids[n..])
  {
  }
  function Renamed(uses: seq<Use>, ids: seq<string>): seq<Use>
    requires |uses| == |ids|
  {
    seq(|uses|, i requires 0 <= i < |uses| => Use(uses[i].call, ids[i]))
  }

  lemma {:induction false} RenamedConcat(a: seq<Use>, b: seq<Use>, ids: seq<string>)
    requires |a| + |b| == |ids|
    ensures Renamed(a + b, ids) == Renamed(a, ids[..|a|]) + Renamed(b, ids[|a|..])
  {
  }

  /** A relabelled context mentions the new identities where the old one mentioned the old. */
  lemma {:induction false} RelabelBlocksUses(bs: seq<Block>, ids: seq<string>)
    requires |ids| == |BlocksUses(bs)|
    ensures BlocksUses(RelabelBlocks(bs, ids)) == Renamed(BlocksUses(bs), ids)
  {
    if bs != [] {
      var n := |BlockUses(bs[0])|;
      RelabelBlocksCons(bs, ids);
      RelabelBlocksUses(bs[1..], ids[n..]);
      RelabelBlockUses(bs[0], ids[..n]);
      RenamedConcat(BlockUses(bs[0]), BlocksUses(bs[1..]), ids);
      BlocksUsesCons(RelabelBlock(bs[0], ids[..n]), RelabelBlocks(bs[1..], ids[n..]));
      hide Renamed;
      hide BlockUses;
      hide RelabelBlock;
    }
  }

  lemma {:induction false} RelabelBlockUses(b: Block, ids: seq<string>)
    requires |ids| == |BlockUses(b)|
    ensures BlockUses(RelabelBlock(b, ids)) == Renamed(BlockUses(b), ids)
  {
  }

  lemma {:induction false} BlocksUsesCons(b: Block, bs: seq<Block>)
    ensures BlocksUses([b] + bs) == BlockUses(b) + BlocksUses(bs)
  {
    assert ([b] + bs)[1..] == bs;
  }

  lemma {:induction false} UsesCons(m: Message, ms: seq<Message>)
    ensures Uses([m] + ms) == MessageUses(m) + Uses(ms)
  {
    assert ([m] + ms)[1..] == ms;
  }

  lemma {:induction false} RelabelUses(ms: seq<Message>, ids: seq<string>)
    requires |ids| == |Uses(ms)|
    ensures Uses(Relabel(ms, ids)) == Renamed(Uses(ms), ids)
  {
    if ms != [] {
      var n := |MessageUses(ms[0])|;
      RelabelCons(ms, ids);
      RelabelMessageUses(ms[0], ids[..n]);
      RelabelUses(ms[1..], ids[n..]);
      RenamedConcat(MessageUses(ms[0]), Uses(ms[1..]), ids);
      UsesCons(RelabelMessage(ms[0], ids[..n]), Relabel(ms[1..], ids[n..]));
      hide Renamed;
      hide MessageUses;
      hide RelabelMessage;
    }
  }

  lemma {:induction false} RelabelMessageUses(m: Message, ids: seq<string>)
    requires |ids| == |MessageUses(m)|
    ensures MessageUses(RelabelMessage(m, ids)) == Renamed(MessageUses(m), ids)
  {
    if m.Assistant? { RelabelBlocksUses(m.content, ids); }
  }

  lemma {:induction false} RelabelBlocksAgain(bs: seq<Block>, ids: seq<string>, again: seq<string>)
    requires |ids| == |BlocksUses(bs)| == |again|
    ensures |BlocksUses(RelabelBlocks(bs, ids))| == |again|
    ensures RelabelBlocks(RelabelBlocks(bs, ids), again) == RelabelBlocks(bs, again)
  {
    RelabelBlocksUses(bs, ids);
    if bs != [] {
      var n := |BlockUses(bs[0])|;
      RelabelBlocksAgain(bs[1..], ids[n..], again[n..]);
      assert RelabelBlocks(bs, ids)[1..] == RelabelBlocks(bs[1..], ids[n..]);
    }
  }

  lemma {:induction false} RelabelMessageAgain(m: Message, ids: seq<string>, again: seq<string>)
    requires |ids| == |MessageUses(m)| == |again|
    ensures |MessageUses(RelabelMessage(m, ids))| == |again|
    ensures RelabelMessage(RelabelMessage(m, ids), again) == RelabelMessage(m, again)
  {
    if m.Assistant? { RelabelBlocksAgain(m.content, ids, again); }
  }

  lemma {:induction false} RelabelAgain(ms: seq<Message>, ids: seq<string>, again: seq<string>)
    requires |ids| == |Uses(ms)| == |again|
    ensures |Uses(Relabel(ms, ids))| == |again|
    ensures Relabel(Relabel(ms, ids), again) == Relabel(ms, again)
  {
    RelabelUses(ms, ids);
    if ms != [] {
      var n := |MessageUses(ms[0])|;
      RelabelMessageAgain(ms[0], ids[..n], again[..n]);
      RelabelAgain(ms[1..], ids[n..], again[n..]);
      assert Relabel(ms, ids)[1..] == Relabel(ms[1..], ids[n..]);
      hide MessageUses;
      hide RelabelMessage;
    }
  }

  lemma {:induction false} RelabelSame(ms: seq<Message>)
    ensures Relabel(ms, CallIdsOf(Uses(ms))) == ms
  {
    if ms != [] {
      var ids := CallIdsOf(Uses(ms));
      var n := |MessageUses(ms[0])|;
      assert ids[..n] == CallIdsOf(MessageUses(ms[0]));
      assert ids[n..] == CallIdsOf(Uses(ms[1..]));
      RelabelMessageSame(ms[0]);
      RelabelSame(ms[1..]);
      hide MessageUses;
      hide RelabelMessage;
    }
  }

  lemma {:induction false} RelabelMessageSame(m: Message)
    ensures RelabelMessage(m, CallIdsOf(MessageUses(m))) == m
  {
    if m.Assistant? { RelabelBlocksSame(m.content); }
  }

  lemma {:induction false} RelabelBlocksSame(bs: seq<Block>)
    ensures RelabelBlocks(bs, CallIdsOf(BlocksUses(bs))) == bs
  {
    if bs != [] {
      var ids := CallIdsOf(BlocksUses(bs));
      var n := |BlockUses(bs[0])|;
      assert ids[..n] == CallIdsOf(BlockUses(bs[0]));
      assert ids[n..] == CallIdsOf(BlocksUses(bs[1..]));
      RelabelBlocksSame(bs[1..]);
    }
  }

  function CallIdsOf(uses: seq<Use>): seq<string> {
    seq(|uses|, i requires 0 <= i < |uses| => uses[i].callId)
  }

  predicate Extends(small: map<string, string>, large: map<string, string>) {
    forall id :: id in small ==> id in large && large[id] == small[id]
  }

  /** Every ID given stands for the provider ID it replaced, now and from then on. */
  lemma {:induction false} IdentifyAllNames(s: State, uses: seq<Use>, keeps: string -> bool)
    ensures var r := IdentifyAll(s, uses, keeps); r.Ok? ==>
              && Extends(s.ids.names, r.value.0.ids.names)
              && |r.value.1| == |uses|
              && forall i :: 0 <= i < |uses| ==>
                   r.value.1[i] in r.value.0.ids.names && r.value.0.ids.names[r.value.1[i]] == uses[i].callId
    decreases |uses|
  {
    if uses != [] {
      IdentifyNames(s, uses[0], keeps);
      hide Identify;
      match Identify(s, uses[0], keeps)
      case Err(_) =>
      case Ok((t, id)) => IdentifyAllNames(t, uses[1..], keeps);
    }
  }

  lemma {:induction false} IdentifyNames(s: State, u: Use, keeps: string -> bool)
    ensures var r := Identify(s, u, keeps); r.Ok? ==>
              && Extends(s.ids.names, r.value.0.ids.names)
              && r.value.1 in r.value.0.ids.names && r.value.0.ids.names[r.value.1] == u.callId
  {
    ChooseKeepsIds(s, u, keeps);
    hide Choose;
  }

  lemma {:induction false} ChooseKeepsIds(s: State, u: Use, keeps: string -> bool)
    ensures Choose(s, u, keeps).Ok? ==> Choose(s, u, keeps).value.0.ids == s.ids
  {
  }

  /** Accepting a provider context and handing it back gives the context the provider sent. */
  lemma {:induction false} ProviderRoundTrip(ms: seq<Message>, previous: Ids, supply: seq<string>,
                                             keeps: string -> bool)
    ensures var r := BaseContextMessages(ms, previous, supply, keeps);
            r.Ok? ==> ProviderContextMessages(r.value.messages, r.value.toolIds.names) == Ok(ms)
  {
    hide IdentifyAll;
    var s := Begin(previous, supply);
    IdentifyAllNames(s, Uses(ms), keeps);
    match IdentifyAll(s, Uses(ms), keeps)
    case Err(_) =>
    case Ok((end, ids)) =>
      RelabelUses(ms, ids);
      RelabelAgain(ms, ids, CallIdsOf(Uses(ms)));
      var names := end.ids.names;
      var uses := Uses(Relabel(ms, ids));
      AllNamed(uses, names);
      ProviderIdsLength(uses, names);
      assert ProviderIds(uses, names).value == CallIdsOf(Uses(ms));
      RelabelSame(ms);
  }

  lemma {:induction false} AllNamed(uses: seq<Use>, names: map<string, string>)
    requires forall i :: 0 <= i < |uses| ==> uses[i].callId in names
    ensures ProviderIds(uses, names).Ok?
  {
    if uses != [] {
      AllNamed(uses[1..], names);
    }
  }
}
