/** Rebuilding a context and its identity map from the append-only records (AgentProviderContext.ts). */
module ProviderRecords {
  import opened Basics
  import opened ProviderContext
  import opened ProviderMapper

  /** A block or tool record keeps the provider's call ID inside its content and the base ID beside it. */
  datatype Record =
    | BlockRecord(id: Option<string>, block: Block)
    | ToolRecord(baseId: string, callId: string, output: string)
    | MessageRecord(message: Message)
    | Compaction(messages: seq<Message>, contextToolIds: seq<(string, string)>)

  datatype Failure = InvalidBaseId | TwoProviderIds | NoBaseId | NoProviderId

  datatype Context = Context(messages: seq<Message>, toolIds: Ids)

  const EMPTY := Context([], NO_IDS)

  /** `valid` is the format check for base IDs. */
  function RememberId(ids: Ids, id: string, callId: string, valid: string -> bool): Result<Ids, Failure> {
    if !valid(id) then Err(InvalidBaseId)
    else
      match Remember(ids, id, callId)
      case Err(_) => Err(TwoProviderIds)
      case Ok(more) => Ok(more)
  }

  function RememberAll(ids: Ids, pairs: seq<(string, string)>, valid: string -> bool): Result<Ids, Failure>
    decreases |pairs|
  {
    if pairs == [] then Ok(ids)
    else
      match RememberId(ids, pairs[0].0, pairs[0].1, valid)
      case Err(e) => Err(e)
      case Ok(more) => RememberAll(more, pairs[1..], valid)
  }

  /** Blocks of one assistant turn are gathered in one message. */
  function AddBlock(ms: seq<Message>, b: Block): seq<Message> {
    if ms != [] && ms[|ms| - 1].Assistant?
    then ms[..|ms| - 1] + [Assistant(ms[|ms| - 1].content + [b])]
    else ms + [Assistant([b])]
  }

  function ApplyRecord(c: Context, r: Record, valid: string -> bool): Result<Context, Failure> {
    match r
    case Compaction(messages, pairs) =>
      (match RememberAll(NO_IDS, pairs, valid)
       case Err(e) => Err(e)
       case Ok(ids) => Ok(Context(messages, ids)))
    case ToolRecord(id, callId, output) =>
      (match RememberId(c.toolIds, id, callId, valid)
       case Err(e) => Err(e)
       case Ok(ids) => Ok(Context(c.messages + [Tool(id, output)], ids)))
    case MessageRecord(message) => Ok(c.(messages := c.messages + [message]))
    case BlockRecord(id, block) =>
      if block.Text? then Ok(c.(messages := AddBlock(c.messages, block)))
      else if id.None? then Err(NoBaseId)
      else
        (match RememberId(c.toolIds, id.value, block.callId, valid)
         case Err(e) => Err(e)
         case Ok(ids) => Ok(Context(AddBlock(c.messages, RelabelBlock(block, [id.value])), ids)))
  }

  function Replay(c: Context, records: seq<Record>, valid: string -> bool): Result<Context, Failure>
    decreases |records|
  {
    if records == [] then Ok(c)
    else
      match ApplyRecord(c, records[0], valid)
      case Err(e) => Err(e)
      case Ok(d) => Replay(d, records[1..], valid)
  }

  /** A rebuilt context must be translatable to the provider again. */
  function Checked(c: Context): Result<Context, Failure> {
    if ProviderContextMessages(c.messages, c.toolIds.names).Ok? then Ok(c) else Err(NoProviderId)
  }

  function FromRecords(records: seq<Record>, valid: string -> bool): Result<Context, Failure> {
    match Replay(EMPTY, records, valid)
    case Err(e) => Err(e)
    case Ok(c) => Checked(c)
  }

  method ContextFromRecords(records: seq<Record>, valid: string -> bool) returns (r: Result<Context, Failure>)
    ensures r == FromRecords(records, valid)
  {
    hide RememberAll;
    var messages: seq<Message> := [];
    var toolIds := NO_IDS;
    var i := 0;
    while i < |records|
      invariant 0 <= i <= |records|
      invariant Replay(Context(messages, toolIds), records[i..], valid) == Replay(EMPTY, records, valid)
    {
      assert records[i..][0] == records[i] && records[i..][1..] == records[i + 1..];
      match records[i] {
        case Compaction(kept, pairs) =>
          var ids := RememberPairs(pairs, valid);
          if ids.Err? {
            return Err(ids.error);
          }
          messages, toolIds := kept, ids.value;
        case ToolRecord(id, callId, output) =>
          var ids := RememberId(toolIds, id, callId, valid);
          if ids.Err? {
            return Err(ids.error);
          }
          messages, toolIds := messages + [Tool(id, output)], ids.value;
        case MessageRecord(message) =>
          messages := messages + [message];
        case BlockRecord(id, block) =>
          var kept := block;
          if !block.Text? {
            if id.None? {
              return Err(NoBaseId);
            }
            var ids := RememberId(toolIds, id.value, block.callId, valid);
            if ids.Err? {
              return Err(ids.error);
            }
            kept, toolIds := RelabelBlock(block, [id.value]), ids.value;
          }
          messages := AddBlock(messages, kept);
      }
      i := i + 1;
    }
    return Checked(Context(messages, toolIds));
  }

  method RememberPairs(pairs: seq<(string, string)>, valid: string -> bool) returns (r: Result<Ids, Failure>)
    ensures r == RememberAll(NO_IDS, pairs, valid)
  {
    var ids := NO_IDS;
    for i := 0 to |pairs|
      invariant RememberAll(ids, pairs[i..], valid) == RememberAll(NO_IDS, pairs, valid)
    {
      assert pairs[i..][0] == pairs[i] && pairs[i..][1..] == pairs[i + 1..];
      var more := RememberId(ids, pairs[i].0, pairs[i].1, valid);
      if more.Err? {
        return more;
      }
      ids := more.value;
    }
    return Ok(ids);
  }

  // ----- Compaction -----

  lemma {:induction false} ReplayConcat(c: Context, a: seq<Record>, b: seq<Record>, valid: string -> bool)
    ensures Replay(c, a + b, valid)
         == match Replay(c, a, valid) case Err(e) => Err(e) case Ok(d) => Replay(d, b, valid)
    decreases |a|
  {
    hide ApplyRecord;
    if a == [] {
      assert a + b == b;
    } else {
      assert (a + b)[1..] == a[1..] + b;
      match ApplyRecord(c, a[0], valid)
      case Err(_) =>
      case Ok(d) => ReplayConcat(d, a[1..], b, valid);
    }
  }

  /** Records before a compaction count for nothing, except that a log they make unreadable stays so. */
  lemma {:induction false} CompactionForgets(before: seq<Record>, compaction: Record, after: seq<Record>,
                                             valid: string -> bool)
    requires compaction.Compaction?
    ensures FromRecords(before + [compaction] + after, valid)
         == match Replay(EMPTY, before, valid)
            case Err(e) => Err(e)
            case Ok(_) => FromRecords([compaction] + after, valid)
  {
    assert before + [compaction] + after == before + ([compaction] + after);
    ReplayConcat(EMPTY, before, [compaction] + after, valid);
    assert ([compaction] + after)[1..] == after;
  }

  /** The identity map as a compaction stores it. */
  function Stored(order: seq<string>, names: map<string, string>): seq<(string, string)>
    requires forall id :: id in order ==> id in names
  {
    seq(|order|, i requires 0 <= i < |order| => (order[i], names[order[i]]))
  }

  lemma {:induction false} RememberStored(ids: Ids, order: seq<string>, names: map<string, string>,
                                          valid: string -> bool)
    requires forall id :: id in order ==> id in names && valid(id) && id !in ids.names
    requires forall i, j :: 0 <= i < j < |order| ==> order[i] != order[j]
    ensures var r := RememberAll(ids, Stored(order, names), valid);
            && r.Ok? && r.value.order == ids.order + order
            && (forall id :: id in r.value.names <==> id in ids.names || id in order)
            && (forall id :: id in ids.names ==> r.value.names[id] == ids.names[id])
            && (forall id :: id in order ==> r.value.names[id] == names[id])
    decreases |order|
  {
    if order == [] {
      assert ids.order + [] == ids.order;
    } else {
      var pairs := Stored(order, names);
      assert pairs[0] == (order[0], names[order[0]]) && pairs[1..] == Stored(order[1..], names);
      var more := Ids(ids.order + [order[0]], ids.names[order[0] := names[order[0]]]);
      assert RememberId(ids, order[0], names[order[0]], valid) == Ok(more);
      assert forall id :: id in order[1..] ==> id in order;
      assert forall id :: id in order ==> id == order[0] || id in order[1..];
      RememberStored(more, order[1..], names, valid);
      Associative(ids.order, [order[0]], order[1..]);
      assert order == [order[0]] + order[1..];
      hide Stored;
    }
  }

  /** A compaction of a translatable context is read back as that context. */
  lemma {:induction false} CompactionRestores(c: Context, valid: string -> bool)
    requires c.toolIds.Valid() && (forall id :: id in c.toolIds.order ==> valid(id))
    requires ProviderContextMessages(c.messages, c.toolIds.names).Ok?
    ensures FromRecords([Compaction(c.messages, Stored(c.toolIds.order, c.toolIds.names))], valid) == Ok(c)
  {
    hide ProviderContextMessages;
    var ids := c.toolIds;
    RememberStored(NO_IDS, ids.order, ids.names, valid);
    var r := RememberAll(NO_IDS, Stored(ids.order, ids.names), valid);
    assert r.value.names == ids.names && [] + ids.order == ids.order;
    var record := Compaction(c.messages, Stored(ids.order, ids.names));
    assert [record][1..] == [];
    assert Replay(EMPTY, [record], valid) == Ok(c);
  }

  // ----- Records of a conversation -----

  /** What is recorded for one canonical message; an assistant turn is recorded block by block. */
  function RecordsOf(m: Message, names: map<string, string>): seq<Record>
    requires forall u :: u in MessageUses(m) ==> u.callId in names
  {
    match m
    case Assistant(content) => BlockRecords(content, names)
    case Tool(id, output) => assert Use(false, id) in MessageUses(m); [ToolRecord(id, names[id], output)]
    case _ => [MessageRecord(m)]
  }

  function BlockRecordOf(b: Block, names: map<string, string>): Record
    requires forall u :: u in BlockUses(b) ==> u.callId in names
  {
    if b.Text? then BlockRecord(None, b)
    else
      assert Use(b.ToolCall?, b.callId) in BlockUses(b);
      BlockRecord(Some(b.callId), RelabelBlock(b, [names[b.callId]]))
  }

  function BlockRecords(bs: seq<Block>, names: map<string, string>): seq<Record>
    requires forall u :: u in BlocksUses(bs) ==> u.callId in names
  {
    if bs == [] then []
    else
      assert forall u :: u in BlockUses(bs[0]) || u in BlocksUses(bs[1..]) ==> u in BlocksUses(bs);
      [BlockRecordOf(bs[0], names)] + BlockRecords(bs[1..], names)
  }

  function Log(ms: seq<Message>, names: map<string, string>): seq<Record>
    requires forall u :: u in Uses(ms) ==> u.callId in names
  {
    if ms == [] then []
    else
      assert forall u :: u in MessageUses(ms[0]) || u in Uses(ms[1..]) ==> u in Uses(ms);
      RecordsOf(ms[0], names) + Log(ms[1..], names)
  }

  /** Adjacent assistant blocks end up in one message, whatever messages they came from. */
  function AddBlocks(ms: seq<Message>, bs: seq<Block>): seq<Message>
    decreases |bs|
  {
    if bs == [] then ms else AddBlocks(AddBlock(ms, bs[0]), bs[1..])
  }

  function Merged(done: seq<Message>, ms: seq<Message>): seq<Message>
    decreases |ms|
  {
    if ms == [] then done
    else Merged(if ms[0].Assistant? then AddBlocks(done, ms[0].content) else done + [ms[0]], ms[1..])
  }

  predicate Mentioned(id: string, uses: seq<Use>) { Use(true, id) in uses || Use(false, id) in uses }

  /** `order` followed by the IDs first mentioned in `uses`, in order of first mention. */
  function Mentions(order: seq<string>, uses: seq<Use>): seq<string>
    decreases |uses|
  {
    if uses == [] then order
    else Mentions(if uses[0].callId in order then order else order + [uses[0].callId], uses[1..])
  }

  /** The map holds these IDs in this order, each under its own name. */
  ghost predicate Holds(ids: Ids, order: seq<string>, names: map<string, string>) {
    && ids.order == order
    && (forall id :: id in ids.names <==> id in order)
    && (forall id :: id in order ==> id in names && ids.names[id] == names[id])
  }

  lemma {:induction false} MentionsConcat(order: seq<string>, a: seq<Use>, b: seq<Use>)
    ensures Mentions(order, a + b) == Mentions(Mentions(order, a), b)
    decreases |a|
  {
    if a == [] {
      assert a + b == b;
    } else {
      assert (a + b)[0] == a[0] && (a + b)[1..] == a[1..] + b;
      MentionsConcat(if a[0].callId in order then order else order + [a[0].callId], a[1..], b);
    }
  }

  lemma {:induction false} MentionsKeeps(order: seq<string>, uses: seq<Use>)
    ensures order <= Mentions(order, uses)
    ensures forall id :: id in Mentions(order, uses) <==> id in order || Mentioned(id, uses)
    decreases |uses|
  {
    if uses != [] {
      var next := if uses[0].callId in order then order else order + [uses[0].callId];
      MentionsKeeps(next, uses[1..]);
      forall id ensures Mentioned(id, uses) <==> id == uses[0].callId || Mentioned(id, uses[1..]) {
        assert uses[0] == Use(true, uses[0].callId) || uses[0] == Use(false, uses[0].callId);
      }
    }
  }

  /** `a` is mentioned before `b` first is. */
  predicate Before(a: string, b: string, uses: seq<Use>) {
    exists k :: 0 <= k < |uses| && uses[k].callId == a && !Mentioned(b, uses[..k + 1])
  }

  /** What Mentions means: each ID mentioned once, and one that stands earlier is mentioned earlier. */
  lemma {:induction false} MentionsInOrder(uses: seq<Use>)
    ensures var order := Mentions([], uses);
            && (forall id :: id in order <==> Mentioned(id, uses))
            && forall i, j :: 0 <= i < j < |order| ==> order[i] != order[j] && Before(order[i], order[j], uses)
    decreases |uses|
  {
    MentionsKeeps([], uses);
    if uses != [] {
      var front, last := uses[..|uses| - 1], uses[|uses| - 1];
      assert uses == front + [last] && [last][1..] == [];
      MentionsConcat([], front, [last]);
      MentionsInOrder(front);
      MentionsKeeps([], front);
      var order, all := Mentions([], front), Mentions([], uses);
      assert all == if last.callId in order then order else order + [last.callId];
      forall i, j | 0 <= i < j < |all| ensures all[i] != all[j] && Before(all[i], all[j], uses) {
        if j < |order| {
          BeforeLater(all[i], all[j], front, last);
        } else {
          MentionedBefore(order[i], last, front);
        }
      }
    }
  }

  lemma {:induction false} BeforeLater(a: string, b: string, front: seq<Use>, last: Use)
    requires Before(a, b, front)
    ensures Before(a, b, front + [last])
  {
    var k :| 0 <= k < |front| && front[k].callId == a && !Mentioned(b, front[..k + 1]);
    assert (front + [last])[k] == front[k] && (front + [last])[..k + 1] == front[..k + 1];
  }

  lemma {:induction false} MentionedBefore(a: string, last: Use, front: seq<Use>)
    requires Mentioned(a, front) && !Mentioned(last.callId, front)
    ensures Before(a, last.callId, front + [last])
  {
    var k :| 0 <= k < |front| && front[k].callId == a;
    var all := front + [last];
    assert all[k] == front[k] && all[..k + 1] == front[..k + 1];
    assert forall u :: u in front[..k + 1] ==> u in front;
  }

  /** The first block and the others, each with only identities that have names. */
  lemma {:induction false} BlocksInParts(bs: seq<Block>, names: map<string, string>, valid: string -> bool)
    requires bs != [] && forall u :: u in BlocksUses(bs) ==> u.callId in names && valid(u.callId)
    ensures forall u :: u in BlockUses(bs[0]) ==> u.callId in names && valid(u.callId)
    ensures forall u :: u in BlocksUses(bs[1..]) ==> u.callId in names && valid(u.callId)
    ensures BlockRecords(bs, names) == [BlockRecordOf(bs[0], names)] + BlockRecords(bs[1..], names)
    ensures BlocksUses(bs) == BlockUses(bs[0]) + BlocksUses(bs[1..])
  {
    hide BlockUses;
    hide BlockRecordOf;
    assert forall u :: u in BlockUses(bs[0]) || u in BlocksUses(bs[1..]) ==> u in BlocksUses(bs);
  }

  lemma {:induction false} BlocksReplay(c: Context, bs: seq<Block>, names: map<string, string>, valid: string -> bool)
    requires forall u :: u in BlocksUses(bs) ==> u.callId in names && valid(u.callId)
    requires Holds(c.toolIds, c.toolIds.order, names)
    ensures var r := Replay(c, BlockRecords(bs, names), valid);
            && r.Ok? && r.value.messages == AddBlocks(c.messages, bs)
            && Holds(r.value.toolIds, Mentions(c.toolIds.order, BlocksUses(bs)), names)
    decreases |bs|
  {
    if bs != [] {
      BlocksInParts(bs, names, valid);
      BlockReplays(c, bs[0], names, valid);
      var first := BlockRecordOf(bs[0], names);
      var next := ApplyRecord(c, first, valid).value;
      hide ApplyRecord;
      hide BlockRecordOf;
      hide BlockRecords;
      hide BlocksUses;
      hide BlockUses;
      hide AddBlock;
      hide Mentions;
      BlocksReplay(next, bs[1..], names, valid);
      assert ([first] + BlockRecords(bs[1..], names))[1..] == BlockRecords(bs[1..], names);
      MentionsConcat(c.toolIds.order, BlockUses(bs[0]), BlocksUses(bs[1..]));
    }
  }

  lemma {:induction false} BlockReplays(c: Context, b: Block, names: map<string, string>, valid: string -> bool)
    requires forall u :: u in BlockUses(b) ==> u.callId in names && valid(u.callId)
    requires Holds(c.toolIds, c.toolIds.order, names)
    ensures var r := ApplyRecord(c, BlockRecordOf(b, names), valid);
            && r.Ok? && r.value.messages == AddBlock(c.messages, b)
            && Holds(r.value.toolIds, Mentions(c.toolIds.order, BlockUses(b)), names)
  {
    if !b.Text? { assert Use(b.ToolCall?, b.callId) in BlockUses(b); }
  }

  lemma {:induction false} LogInParts(ms: seq<Message>, names: map<string, string>, valid: string -> bool)
    requires ms != [] && forall u :: u in Uses(ms) ==> u.callId in names && valid(u.callId)
    ensures forall u :: u in MessageUses(ms[0]) ==> u.callId in names && valid(u.callId)
    ensures forall u :: u in Uses(ms[1..]) ==> u.callId in names && valid(u.callId)
    ensures Log(ms, names) == RecordsOf(ms[0], names) + Log(ms[1..], names)
    ensures Uses(ms) == MessageUses(ms[0]) + Uses(ms[1..])
  {
    hide MessageUses;
    hide RecordsOf;
    assert forall u :: u in MessageUses(ms[0]) || u in Uses(ms[1..]) ==> u in Uses(ms);
  }

  lemma {:induction false} LogReplays(c: Context, ms: seq<Message>, names: map<string, string>, valid: string -> bool)
    requires forall u :: u in Uses(ms) ==> u.callId in names && valid(u.callId)
    requires Holds(c.toolIds, c.toolIds.order, names)
    ensures var r := Replay(c, Log(ms, names), valid);
            && r.Ok? && r.value.messages == Merged(c.messages, ms)
            && Holds(r.value.toolIds, Mentions(c.toolIds.order, Uses(ms)), names)
    decreases |ms|
  {
    if ms != [] {
      LogInParts(ms, names, valid);
      var first := RecordsOf(ms[0], names);
      ReplayConcat(c, first, Log(ms[1..], names), valid);
      MessageReplays(c, ms[0], names, valid);
      var next := Replay(c, first, valid).value;
      hide RecordsOf;
      hide Log;
      hide Uses;
      hide MessageUses;
      hide Replay;
      hide AddBlocks;
      hide Mentions;
      LogReplays(next, ms[1..], names, valid);
      MentionsConcat(c.toolIds.order, MessageUses(ms[0]), Uses(ms[1..]));
    }
  }

  lemma {:induction false} MessageReplays(c: Context, m: Message, names: map<string, string>, valid: string -> bool)
    requires forall u :: u in MessageUses(m) ==> u.callId in names && valid(u.callId)
    requires Holds(c.toolIds, c.toolIds.order, names)
    ensures var r := Replay(c, RecordsOf(m, names), valid);
            && r.Ok?
            && r.value.messages == (if m.Assistant? then AddBlocks(c.messages, m.content) else c.messages + [m])
            && Holds(r.value.toolIds, Mentions(c.toolIds.order, MessageUses(m)), names)
  {
    if m.Assistant? {
      BlocksReplay(c, m.content, names, valid);
    } else {
      var record := RecordsOf(m, names)[0];
      assert RecordsOf(m, names) == [record] && [record][1..] == [];
      if m.Tool? { assert Use(false, m.callId) in MessageUses(m); }
    }
  }

  // ----- Rebuilding -----

  lemma {:induction false} AddBlockUses(ms: seq<Message>, b: Block)
    ensures Uses(AddBlock(ms, b)) == Uses(ms) + BlockUses(b)
  {
    hide BlockUses;
    if ms != [] && ms[|ms| - 1].Assistant? {
      var front, content := ms[..|ms| - 1], ms[|ms| - 1].content;
      assert ms == front + [Assistant(content)];
      UsesSnoc(front, Assistant(content));
      UsesSnoc(front, Assistant(content + [b]));
      BlocksUsesSnoc(content, b);
    } else {
      UsesSnoc(ms, Assistant([b]));
      BlocksUsesSnoc([], b);
      assert [] + [b] == [b];
    }
  }

  lemma {:induction false} AddBlocksUses(ms: seq<Message>, bs: seq<Block>)
    ensures Uses(AddBlocks(ms, bs)) == Uses(ms) + BlocksUses(bs)
    decreases |bs|
  {
    if bs != [] {
      AddBlockUses(ms, bs[0]);
      AddBlocksUses(AddBlock(ms, bs[0]), bs[1..]);
    }
  }

  /** Merging assistant messages keeps every mention of an identity, in order. */
  lemma {:induction false} MergedUses(done: seq<Message>, ms: seq<Message>)
    ensures Uses(Merged(done, ms)) == Uses(done) + Uses(ms)
    decreases |ms|
  {
    if ms != [] {
      if ms[0].Assistant? {
        AddBlocksUses(done, ms[0].content);
        MergedUses(AddBlocks(done, ms[0].content), ms[1..]);
      } else {
        UsesSnoc(done, ms[0]);
        MergedUses(done + [ms[0]], ms[1..]);
      }
    }
  }

  lemma {:induction false} BlockLogIsValid(c: Context, bs: seq<Block>, names: map<string, string>,
                                           valid: string -> bool, u: Use)
    requires forall v :: v in BlocksUses(bs) ==> v.callId in names
    requires u in BlocksUses(bs) && Replay(c, BlockRecords(bs, names), valid).Ok?
    ensures valid(u.callId)
    decreases |bs|
  {
    var b := bs[0];
    assert forall v :: v in BlockUses(b) || v in BlocksUses(bs[1..]) ==> v in BlocksUses(bs);
    assert BlockRecords(bs, names)[1..] == BlockRecords(bs[1..], names);
    if u !in BlockUses(b) {
      BlockLogIsValid(ApplyRecord(c, BlockRecordOf(b, names), valid).value, bs[1..], names, valid, u);
    }
  }

  lemma {:induction false} LogIsValid(c: Context, ms: seq<Message>, names: map<string, string>,
                                      valid: string -> bool, u: Use)
    requires forall v :: v in Uses(ms) ==> v.callId in names
    requires u in Uses(ms) && Replay(c, Log(ms, names), valid).Ok?
    ensures valid(u.callId)
    decreases |ms|
  {
    var m := ms[0];
    assert forall v :: v in MessageUses(m) || v in Uses(ms[1..]) ==> v in Uses(ms);
    ReplayConcat(c, RecordsOf(m, names), Log(ms[1..], names), valid);
    if u !in MessageUses(m) {
      LogIsValid(Replay(c, RecordsOf(m, names), valid).value, ms[1..], names, valid, u);
    } else if m.Assistant? {
      BlockLogIsValid(c, m.content, names, valid, u);
    } else {
      assert RecordsOf(m, names)[0] == ToolRecord(m.callId, names[m.callId], m.output);
    }
  }

  /** The log of a conversation can be read back exactly when its tool identities are well formed. It then
      gives the conversation with adjacent assistant messages merged, and the identity map cut down to the
      identities the conversation mentions, in order of first mention. */
  lemma {:induction false} LogRebuildsConversation(ms: seq<Message>, names: map<string, string>, valid: string -> bool)
    requires forall u :: u in Uses(ms) ==> u.callId in names
    ensures var r := FromRecords(Log(ms, names), valid);
            && (r.Ok? <==> forall u :: u in Uses(ms) ==> valid(u.callId))
            && (r.Ok? ==>
                  && r.value.messages == Merged([], ms) && Uses(r.value.messages) == Uses(ms)
                  && Holds(r.value.toolIds, Mentions([], Uses(ms)), names))
  {
    hide Replay;
    hide Log;
    hide Mentions;
    var r := Replay(EMPTY, Log(ms, names), valid);
    MergedUses([], ms);
    assert [] + Uses(ms) == Uses(ms);
    if forall u :: u in Uses(ms) ==> valid(u.callId) {
      LogReplays(EMPTY, ms, names, valid);
      MentionsKeeps([], Uses(ms));
      forall i | 0 <= i < |Uses(ms)| ensures Uses(ms)[i].callId in r.value.toolIds.names {
        var u := Uses(ms)[i];
        assert u == Use(true, u.callId) || u == Use(false, u.callId);
      }
      AllNamed(Uses(ms), r.value.toolIds.names);
    } else {
      var u :| u in Uses(ms) && !valid(u.callId);
      if r.Ok? { LogIsValid(EMPTY, ms, names, valid, u); }
    }
  }
}
