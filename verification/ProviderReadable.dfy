/** Which logs a context can be rebuilt from, read off the records (`contextFromRecords` of AgentProviderContext.ts). */
module ProviderReadable {
  import opened Basics
  import opened ProviderContext
  import opened ProviderMapper
  import opened ProviderRecords

  /** The base IDs a record names, with the provider IDs they stand for. */
  function Namings(r: Record): seq<(string, string)> {
    match r
    case Compaction(_, pairs) => pairs
    case ToolRecord(id, callId, _) => [(id, callId)]
    case BlockRecord(id, block) => if block.Text? || id.None? then [] else [(id.value, block.callId)]
    case MessageRecord(_) => []
  }

  /** A tool block has its base ID, and every base ID has the form of one. */
  predicate Complete(r: Record, valid: string -> bool) {
    && (r.BlockRecord? ==> r.block.Text? || r.id.Some?)
    && forall i :: 0 <= i < |Namings(r)| ==> valid(Namings(r)[i].0)
  }

  /** Everything named since the last compaction, which starts anew. */
  function Since(records: seq<Record>): seq<(string, string)> {
    if records == [] then []
    else
      var last := records[|records| - 1];
      if last.Compaction? then Namings(last) else Since(records[..|records| - 1]) + Namings(last)
  }

  /** No base ID stands for two provider IDs. */
  predicate Consistent(pairs: seq<(string, string)>) {
    forall i, j :: 0 <= i < j < |pairs| && pairs[i].0 == pairs[j].0 ==> pairs[i].1 == pairs[j].1
  }

  /** The identities that records bring along in whole messages since the last compaction. */
  function Quoted(records: seq<Record>): seq<Use> {
    if records == [] then []
    else
      var last := records[|records| - 1];
      match last
      case Compaction(messages, _) => Uses(messages)
      case MessageRecord(message) => Quoted(records[..|records| - 1]) + MessageUses(message)
      case _ => Quoted(records[..|records| - 1])
  }

  /** The map holds exactly these pairs. */
  ghost predicate Maps(names: map<string, string>, pairs: seq<(string, string)>) {
    forall id, callId :: (id in names && names[id] == callId) <==> (id, callId) in pairs
  }

  lemma {:induction false} NamedSnoc(ids: Ids, pairs: seq<(string, string)>, pair: (string, string),
                                     valid: string -> bool)
    requires Maps(ids.names, pairs) && Consistent(pairs)
    ensures RememberId(ids, pair.0, pair.1, valid).Ok? <==> valid(pair.0) && Consistent(pairs + [pair])
    ensures RememberId(ids, pair.0, pair.1, valid).Ok? ==>
              Maps(RememberId(ids, pair.0, pair.1, valid).value.names, pairs + [pair])
  {
    var more := pairs + [pair];
    if pair.0 in ids.names {
      assert (pair.0, ids.names[pair.0]) in pairs;
      var i :| 0 <= i < |pairs| && pairs[i] == (pair.0, ids.names[pair.0]);
      assert more[i] == pairs[i] && more[|pairs|] == pair;
    }
    forall i, j | 0 <= i < j < |more| && more[i].0 == more[j].0 && (pair.0 in ids.names ==> ids.names[pair.0] == pair.1)
      ensures more[i].1 == more[j].1
    {
      if j == |pairs| {
        assert pairs[i] in pairs && pairs[i] == (pairs[i].0, pairs[i].1);
      } else {
        assert more[i] == pairs[i] && more[j] == pairs[j];
      }
    }
    forall id, callId ensures (id, callId) in more <==> (id, callId) in pairs || (id, callId) == pair {
    }
  }

  lemma {:induction false} ConsistentPart(pairs: seq<(string, string)>, more: seq<(string, string)>)
    requires Consistent(pairs + more)
    ensures Consistent(pairs)
  {
    var all := pairs + more;
    forall i, j | 0 <= i < j < |pairs| && pairs[i].0 == pairs[j].0 ensures pairs[i].1 == pairs[j].1 {
      assert all[i] == pairs[i] && all[j] == pairs[j];
    }
  }

  lemma {:induction false} RememberAllIff(ids: Ids, before: seq<(string, string)>, pairs: seq<(string, string)>,
                                          valid: string -> bool)
    requires Maps(ids.names, before) && Consistent(before)
    ensures RememberAll(ids, pairs, valid).Ok?
       <==> (forall i :: 0 <= i < |pairs| ==> valid(pairs[i].0)) && Consistent(before + pairs)
    ensures RememberAll(ids, pairs, valid).Ok? ==> Maps(RememberAll(ids, pairs, valid).value.names, before + pairs)
    decreases |pairs|
  {
    hide Consistent;
    hide Maps;
    hide RememberId;
    if pairs == [] {
      assert before + pairs == before;
    } else {
      NamedSnoc(ids, before, pairs[0], valid);
      assert before + pairs == before + [pairs[0]] + pairs[1..];
      var r := RememberId(ids, pairs[0].0, pairs[0].1, valid);
      if r.Ok? {
        RememberAllIff(r.value, before + [pairs[0]], pairs[1..], valid);
        assert forall i :: 1 <= i < |pairs| ==> pairs[1..][i - 1] == pairs[i];
      } else if Consistent(before + pairs) {
        ConsistentPart(before + [pairs[0]], pairs[1..]);
      }
    }
  }

  lemma {:induction false} RememberOne(ids: Ids, id: string, callId: string, valid: string -> bool)
    ensures RememberAll(ids, [(id, callId)], valid) == RememberId(ids, id, callId, valid)
  {
    assert [(id, callId)][1..] == [];
    var r := RememberId(ids, id, callId, valid);
    if r.Ok? { assert RememberAll(r.value, [], valid) == r; }
  }

  /** A record can be applied exactly when it is complete and names nothing otherwise than before. */
  lemma {:induction false} ApplyIff(c: Context, before: seq<(string, string)>, r: Record, valid: string -> bool)
    requires Maps(c.toolIds.names, before) && Consistent(before)
    ensures var after := if r.Compaction? then Namings(r) else before + Namings(r);
            && (ApplyRecord(c, r, valid).Ok? <==> Complete(r, valid) && Consistent(after))
            && (ApplyRecord(c, r, valid).Ok? ==> Maps(ApplyRecord(c, r, valid).value.toolIds.names, after))
  {
    hide Maps;
    hide Consistent;
    hide RememberId;
    hide RememberAll;
    match r
    case Compaction(_, pairs) =>
      NothingNamed();
      RememberAllIff(NO_IDS, [], pairs, valid);
      assert [] + pairs == pairs;
    case ToolRecord(id, callId, _) =>
      RememberOne(c.toolIds, id, callId, valid);
      RememberAllIff(c.toolIds, before, [(id, callId)], valid);
      assert Namings(r)[0].0 == id;
    case MessageRecord(_) => assert before + [] == before;
    case BlockRecord(id, block) =>
      assert before + [] == before;
      if !block.Text? && id.Some? {
        RememberOne(c.toolIds, id.value, block.callId, valid);
        RememberAllIff(c.toolIds, before, [(id.value, block.callId)], valid);
        assert Namings(r)[0].0 == id.value;
      }
  }

  lemma {:induction false} NothingNamed()
    ensures Maps(map[], []) && Consistent([])
  {
  }

  /** Every record is complete, and at no point did the records since a compaction contradict each other. */
  ghost predicate Sound(records: seq<Record>, valid: string -> bool) {
    && (forall k :: 0 <= k < |records| ==> Complete(records[k], valid))
    && (forall n :: 0 <= n <= |records| ==> Consistent(Since(records[..n])))
  }

  lemma {:induction false} SoundSnoc(records: seq<Record>, last: Record, valid: string -> bool)
    ensures Sound(records + [last], valid)
       <==> Sound(records, valid) && Complete(last, valid) && Consistent(Since(records + [last]))
  {
    hide Complete;
    hide Since;
    hide Consistent;
    var all := records + [last];
    assert all[..|all|] == all && all[|records|] == last;
    if Sound(all, valid) {
      forall k | 0 <= k < |records| ensures Complete(records[k], valid) { assert all[k] == records[k]; }
      forall n | 0 <= n <= |records| ensures Consistent(Since(records[..n])) { assert all[..n] == records[..n]; }
    }
    if Sound(records, valid) && Complete(last, valid) && Consistent(Since(all)) {
      forall k | 0 <= k < |all| ensures Complete(all[k], valid) {
        if k < |records| { assert all[k] == records[k]; }
      }
      forall n | 0 <= n <= |all| ensures Consistent(Since(all[..n])) {
        if n <= |records| { assert all[..n] == records[..n]; }
      }
    }
  }

  lemma {:induction false} ReplayIff(records: seq<Record>, valid: string -> bool)
    ensures var r := Replay(EMPTY, records, valid);
            && (r.Ok? <==> Sound(records, valid))
            && (r.Ok? ==> Maps(r.value.toolIds.names, Since(records)))
    decreases |records|
  {
    if records == [] {
      NothingNamed();
      assert records[..0] == [];
    } else {
      var n := |records| - 1;
      var front, last := records[..n], records[n];
      assert records == front + [last];
      ReplayIff(front, valid);
      ReplayConcat(EMPTY, front, [last], valid);
      SoundSnoc(front, last, valid);
      if Replay(EMPTY, front, valid).Ok? {
        var c := Replay(EMPTY, front, valid).value;
        assert front[..|front|] == front && Consistent(Since(front));
        hide Sound;
        hide Maps;
        ApplyIff(c, Since(front), last, valid);
        ReplayOne(c, last, valid);
      }
    }
  }

  lemma {:induction false} ReplayOne(c: Context, r: Record, valid: string -> bool)
    ensures Replay(c, [r], valid) == ApplyRecord(c, r, valid)
  {
    hide ApplyRecord;
    assert [r][1..] == [];
    if ApplyRecord(c, r, valid).Ok? {
      var d := ApplyRecord(c, r, valid).value;
      assert Replay(d, [], valid) == Ok(d);
    }
  }

  // ----- Which identities the messages mention -----

  lemma {:induction false} AddBlockUses(ms: seq<Message>, b: Block)
    ensures Uses(AddBlock(ms, b)) == Uses(ms) + BlockUses(b)
  {
    hide BlockUses;
    var n := |ms| - 1;
    if ms != [] && ms[n].Assistant? {
      assert ms == ms[..n] + [ms[n]];
      UsesSnoc(ms[..n], ms[n]);
      UsesSnoc(ms[..n], Assistant(ms[n].content + [b]));
      BlocksUsesSnoc(ms[n].content, b);
      Associative(Uses(ms[..n]), BlocksUses(ms[n].content), BlockUses(b));
    } else {
      UsesSnoc(ms, Assistant([b]));
      BlocksUsesSnoc([], b);
      assert [] + [b] == [b] && BlocksUses([]) + BlockUses(b) == BlockUses(b);
    }
  }

  /** The IDs mentioned by the messages are those quoted and those named, each with a name if named. */
  ghost predicate MentionsOnly(uses: seq<Use>, quoted: seq<Use>, pairs: seq<(string, string)>) {
    && (forall u :: u in quoted ==> u in uses)
    && (forall u :: u in uses ==> u in quoted || exists c :: (u.callId, c) in pairs)
  }

  lemma {:induction false} MentionsMore(uses: seq<Use>, quoted: seq<Use>, pairs: seq<(string, string)>,
                                        more: seq<Use>, id: string, callId: string)
    requires MentionsOnly(uses, quoted, pairs) && forall u :: u in more ==> u.callId == id
    ensures MentionsOnly(uses + more, quoted, pairs + [(id, callId)])
  {
    var all := pairs + [(id, callId)];
    forall u | u in uses + more ensures u in quoted || exists c :: (u.callId, c) in all {
      if u in more {
        assert all[|pairs|] == (u.callId, callId);
      } else if u !in quoted {
        var c :| (u.callId, c) in pairs;
        assert (u.callId, c) in all;
      }
    }
  }

  lemma {:induction false} ApplyMentions(c: Context, r: Record, quoted: seq<Use>, pairs: seq<(string, string)>,
                                         valid: string -> bool)
    requires MentionsOnly(Uses(c.messages), quoted, pairs) && ApplyRecord(c, r, valid).Ok?
    ensures var d := ApplyRecord(c, r, valid).value;
            match r
            case Compaction(messages, named) => MentionsOnly(Uses(d.messages), Uses(messages), named)
            case MessageRecord(message) => MentionsOnly(Uses(d.messages), quoted + MessageUses(message), pairs)
            case _ => MentionsOnly(Uses(d.messages), quoted, pairs + Namings(r))
  {
    hide Uses;
    hide RememberId;
    match r
    case Compaction(_, _) =>
    case MessageRecord(message) =>
      UsesSnoc(c.messages, message);
    case ToolRecord(id, callId, output) =>
      UsesSnoc(c.messages, Tool(id, output));
      MentionsMore(Uses(c.messages), quoted, pairs, [Use(false, id)], id, callId);
    case BlockRecord(id, block) =>
      if block.Text? {
        AddBlockUses(c.messages, block);
        assert Uses(c.messages) + [] == Uses(c.messages) && pairs + [] == pairs;
      } else {
        var kept := RelabelBlock(block, [id.value]);
        AddBlockUses(c.messages, kept);
        MentionsMore(Uses(c.messages), quoted, pairs, BlockUses(kept), id.value, block.callId);
      }
  }

  lemma {:induction false} ReplayMentions(records: seq<Record>, valid: string -> bool)
    requires Replay(EMPTY, records, valid).Ok?
    ensures MentionsOnly(Uses(Replay(EMPTY, records, valid).value.messages), Quoted(records), Since(records))
    decreases |records|
  {
    hide Uses;
    hide MentionsOnly;
    if records == [] {
      assert MentionsOnly([], [], []) by { NothingMentioned(); }
      assert Uses([]) == [] by { NoUses(); }
    } else {
      var n := |records| - 1;
      var front, last := records[..n], records[n];
      assert records == front + [last];
      ReplayConcat(EMPTY, front, [last], valid);
      ReplayMentions(front, valid);
      var c := Replay(EMPTY, front, valid).value;
      ReplayOne(c, last, valid);
      ApplyMentions(c, last, Quoted(front), Since(front), valid);
      assert Since(front) + [] == Since(front);
    }
  }

  lemma {:induction false} NothingMentioned()
    ensures MentionsOnly([], [], [])
  {
  }

  lemma {:induction false} NoUses()
    ensures Uses([]) == []
  {
  }

  lemma {:induction false} ProviderIdsIff(uses: seq<Use>, names: map<string, string>)
    ensures ProviderIds(uses, names).Ok? <==> forall u :: u in uses ==> u.callId in names
  {
    if uses != [] {
      ProviderIdsIff(uses[1..], names);
      assert forall u :: u in uses <==> u == uses[0] || u in uses[1..];
    }
  }

  /** A context can be rebuilt from a log exactly when every tool block and result has its base ID, every base ID
      has the form of one, none stands for two provider IDs between two compactions or in one, and since the
      last compaction every identity that a whole message brings along is named. Then the map holds exactly
      what was named since the last compaction. */
  lemma {:induction false} ReadableIff(records: seq<Record>, valid: string -> bool)
    ensures var r := FromRecords(records, valid);
            && (r.Ok? <==> Sound(records, valid)
                           && forall u :: u in Quoted(records) ==> exists c :: (u.callId, c) in Since(records))
            && (r.Ok? ==> Maps(r.value.toolIds.names, Since(records)))
  {
    hide Sound;
    ReplayIff(records, valid);
    var r := Replay(EMPTY, records, valid);
    if r.Ok? {
      var c := r.value;
      ReplayMentions(records, valid);
      ProviderIdsIff(Uses(c.messages), c.toolIds.names);
      forall id ensures id in c.toolIds.names <==> exists p :: (id, p) in Since(records) {
        if id in c.toolIds.names { assert (id, c.toolIds.names[id]) in Since(records); }
      }
    }
  }
}
