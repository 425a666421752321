/** Between the messages the agent loop speaks and the blocks that are stored. */
module Convert {
  import opened Wrappers
  import opened Messages

  datatype Json =
    | Null
    | Bool(b: bool)
    | Number(literal: string)
    | String(text: string)
    | Array(items: seq<Json>)
    | Object(fields: map<string, Json>)

  /** A JSON printer and a JSON parser. */
  datatype Codec = Codec(render: Json -> string, parse: string -> Option<Json>) {
    /** Printing and parsing again changes no value the parser returned, and no string (section 2 of
        RFC 8259). */
    ghost predicate Inverts() {
      && (forall raw :: parse(raw).Some? ==> parse(render(parse(raw).value)) == parse(raw))
      && (forall text :: parse(render(String(text))) == Some(String(text)))
    }

    /** Text that printing what it parses to gives back. */
    predicate Canonical(text: string) { parse(text).Some? && render(parse(text).value) == text }
  }

  datatype MessageRole = SystemRole | UserRole | AssistantRole | ToolRole

  datatype Block =
    | Text(text: string)
    | Call(id: string, name: string, arguments: Json)
    | Reply(id: string, output: Json, isError: bool)
    | Citation(source: string)

  datatype Stored = Stored(role: MessageRole, content: seq<Block>)

  function MapRole(r: Role): MessageRole {
    match r
    case System => SystemRole
    case User => UserRole
    case Assistant => AssistantRole
    case Tool => ToolRole
  }

  function UnmapRole(r: MessageRole): Role {
    match r
    case SystemRole => System
    case UserRole => User
    case AssistantRole => Assistant
    case ToolRole => Role.Tool
  }

  /** Unparsable text is kept as a JSON string. */
  function Value(c: Codec, raw: string): Json {
    if c.parse(raw).Some? then c.parse(raw).value else String(raw)
  }

  predicate HasError(v: Json) { v.Object? && "error" in v.fields }

  function ParseToolPayload(c: Codec, raw: string): (Json, bool) {
    match c.parse(raw)
    case Some(v) => (v, HasError(v))
    case None => (String(raw), false)
  }

  function CallBlock(c: Codec, call: ToolCall): Block {
    Call(call.id, call.name, Value(c, call.args))
  }

  function CallBlocks(c: Codec, calls: seq<ToolCall>): seq<Block> {
    seq(|calls|, i requires 0 <= i < |calls| => CallBlock(c, calls[i]))
  }

  function Blocks(c: Codec, m: Message): seq<Block> {
    if m.role.Tool? then
      var (output, isError) := ParseToolPayload(c, m.content);
      [Reply(if m.callId.Some? then m.callId.value else "unknown", output, isError)]
    else
      (if m.content == "" then [] else [Text(m.content)]) + CallBlocks(c, m.calls)
  }

  method BuildBlocks(c: Codec, m: Message) returns (blocks: seq<Block>)
    ensures blocks == Blocks(c, m)
  {
    blocks := [];
    if m.role.Tool? {
      var (output, isError) := ParseToolPayload(c, m.content);
      blocks := blocks + [Reply(if m.callId.Some? then m.callId.value else "unknown", output, isError)];
    } else {
      if m.content != "" { blocks := blocks + [Text(m.content)]; }
      ghost var text := blocks;
      for i := 0 to |m.calls|
        invariant blocks == text + CallBlocks(c, m.calls[..i])
      {
        assert CallBlocks(c, m.calls[..i + 1]) == CallBlocks(c, m.calls[..i]) + [CallBlock(c, m.calls[i])];
        blocks := blocks + [CallBlock(c, m.calls[i])];
      }
      assert m.calls[..|m.calls|] == m.calls;
    }
  }

  function ToStored(c: Codec, m: Message): Stored { Stored(MapRole(m.role), Blocks(c, m)) }

  /** One block read back into the message rebuilt so far. Citations are for the UI only. */
  function Read(c: Codec, m: Message, b: Block): Message {
    match b
    case Text(text) => m.(content := m.content + text)
    case Call(id, name, arguments) => m.(calls := m.calls + [ToolCall(id, name, c.render(arguments))])
    case Reply(id, output, _) => m.(content := m.content + c.render(output), callId := Some(id))
    case Citation(_) => m
  }

  function ReadAll(c: Codec, m: Message, blocks: seq<Block>): Message {
    if blocks == [] then m else Read(c, ReadAll(c, m, blocks[..|blocks| - 1]), blocks[|blocks| - 1])
  }

  function ToMessage(c: Codec, d: Stored): Message {
    ReadAll(c, Message(UnmapRole(d.role), "", [], None), d.content)
  }

  method DomainToLlm(c: Codec, d: Stored) returns (m: Message)
    ensures m == ToMessage(c, d)
  {
    var content, calls, callId := "", [], None;
    ghost var start := Message(UnmapRole(d.role), "", [], None);
    for i := 0 to |d.content|
      invariant Message(UnmapRole(d.role), content, calls, callId) == ReadAll(c, start, d.content[..i])
    {
      assert d.content[..i + 1][..i] == d.content[..i];
      match d.content[i]
      case Text(text) => content := content + text;
      case Call(id, name, arguments) => calls := calls + [ToolCall(id, name, c.render(arguments))];
      case Reply(id, output, _) => callId, content := Some(id), content + c.render(output);
      case Citation(_) =>
    }
    assert d.content[..|d.content|] == d.content;
    m := Message(UnmapRole(d.role), content, calls, callId);
  }

  // ---- what a reload changes, and what it keeps ------------------------------------------

  /** What one stored block contributes to a message. */
  lemma ReadsOne(c: Codec, role: MessageRole, b: Block)
    ensures var m := ToMessage(c, Stored(role, [b]));
            && MapRole(m.role) == role && (m.callId.Some? <==> b.Reply?) && (m.calls != [] <==> b.Call?)
            && match b
               case Text(text) => m.content == text
               case Call(id, name, arguments) => m.content == "" && m.calls == [ToolCall(id, name, c.render(arguments))]
               case Reply(id, output, _) => m.content == c.render(output) && m.callId == Some(id)
               case Citation(_) => m.content == ""
  {
    var start := Message(UnmapRole(role), "", [], None);
    assert [b][..|[b]| - 1] == [];
    assert ReadAll(c, start, [b]) == Read(c, start, b);
    if b.Text? { assert "" + b.text == b.text; }
    if b.Reply? { assert "" + c.render(b.output) == c.render(b.output); }
    if b.Call? { assert start.calls + [ToolCall(b.id, b.name, c.render(b.arguments))]
                        == [ToolCall(b.id, b.name, c.render(b.arguments))]; }
  }

  /** Blocks stored one behind the other are read one behind the other: texts are concatenated,
      calls stay in order, and the last reply gives the id. */
  lemma {:induction false} ReadsApart(c: Codec, role: MessageRole, a: seq<Block>, b: seq<Block>)
    ensures var m, x := ToMessage(c, Stored(role, a + b)), ToMessage(c, Stored(role, a));
            var y := ToMessage(c, Stored(role, b));
            && m.content == x.content + y.content && m.calls == x.calls + y.calls
            && m.callId == if y.callId.Some? then y.callId else x.callId
  {
    if b == [] {
      assert a + b == a;
    } else {
      var n := |b| - 1;
      assert (a + b)[..|a + b| - 1] == a + b[..n];
      ReadsApart(c, role, a, b[..n]);
    }
  }

  /** What is stored for a message. A tool message is one reply, under its id, and an error if and only
      if its content is a JSON object with an "error" field. Any other is its text, unless empty,
      and its calls, in order. JSON texts are parsed, and what is none is kept as a string. */
  lemma StoredIs(c: Codec, m: Message)
    ensures var d := ToStored(c, m);
            if m.role.Tool? then
              && d.role.ToolRole? && |d.content| == 1 && d.content[0].Reply?
              && var reply := d.content[0];
                 && (m.callId.Some? ==> reply.id == m.callId.value)
                 && (c.parse(m.content).Some? ==> reply.output == c.parse(m.content).value)
                 && (c.parse(m.content).None? ==> reply.output == String(m.content))
                 && (reply.isError <==>
                       exists fields :: c.parse(m.content) == Some(Object(fields)) && "error" in fields)
            else
              && !d.role.ToolRole?
              && var k := if m.content == "" then 0 else 1;
                 && |d.content| == k + |m.calls| && (k == 1 ==> d.content[0] == Text(m.content))
                 && forall i :: 0 <= i < |m.calls| ==> CallStored(c, d.content[k + i], m.calls[i])
  {
    if m.role.Tool? && c.parse(m.content).Some? && c.parse(m.content).value.Object? {
      assert c.parse(m.content) == Some(Object(c.parse(m.content).value.fields));
    }
  }

  predicate CallStored(c: Codec, b: Block, call: ToolCall) {
    && b.Call? && b.id == call.id && b.name == call.name
    && (c.parse(call.args).Some? ==> b.arguments == c.parse(call.args).value)
    && (c.parse(call.args).None? ==> b.arguments == String(call.args))
  }

  lemma ValueInverts(c: Codec, raw: string)
    requires c.Inverts()
    ensures c.parse(c.render(Value(c, raw))) == Some(Value(c, raw))
  {}

  function Reloaded(c: Codec, m: Message): Message { ToMessage(c, ToStored(c, m)) }

  function ReloadedCall(c: Codec, call: ToolCall): ToolCall { call.(args := c.render(Value(c, call.args))) }

  function ReloadedCalls(c: Codec, calls: seq<ToolCall>): seq<ToolCall> {
    seq(|calls|, i requires 0 <= i < |calls| => ReloadedCall(c, calls[i]))
  }

  lemma {:induction false} ReadCalls(c: Codec, m: Message, blocks: seq<Block>, calls: seq<ToolCall>)
    ensures ReadAll(c, m, blocks + CallBlocks(c, calls))
            == (var m1 := ReadAll(c, m, blocks); m1.(calls := m1.calls + ReloadedCalls(c, calls)))
    decreases |calls|
  {
    var m1 := ReadAll(c, m, blocks);
    if calls == [] {
      assert blocks + CallBlocks(c, calls) == blocks && m1.calls + ReloadedCalls(c, calls) == m1.calls;
    } else {
      var n := |calls| - 1;
      ReadCalls(c, m, blocks, calls[..n]);
      assert CallBlocks(c, calls) == CallBlocks(c, calls[..n]) + [CallBlock(c, calls[n])];
      assert (blocks + CallBlocks(c, calls))[..|blocks| + n] == blocks + CallBlocks(c, calls[..n]);
      assert m1.calls + ReloadedCalls(c, calls[..n]) + [ReloadedCall(c, calls[n])]
             == m1.calls + ReloadedCalls(c, calls);
    }
  }

  /** A message after one trip through the store. */
  lemma ReloadedIs(c: Codec, m: Message)
    ensures Reloaded(c, m) ==
            if m.role.Tool?
            then Message(m.role, c.render(Value(c, m.content)), [],
                         Some(if m.callId.Some? then m.callId.value else "unknown"))
            else Message(m.role, m.content, ReloadedCalls(c, m.calls), None)
  {
    hide CallBlocks;
    var start := Message(m.role, "", [], None);
    var text := if m.content == "" then [] else [Text(m.content)];
    assert ReadAll(c, start, []) == start;
    if m.role.Tool? {
      var r := Blocks(c, m)[0];
      assert [r][..0] == [] && "" + c.render(r.output) == c.render(r.output);
    } else {
      assert text != [] ==> text[..0] == [] && "" + m.content == m.content;
      ReadCalls(c, start, text, m.calls);
      assert [] + ReloadedCalls(c, m.calls) == ReloadedCalls(c, m.calls);
    }
  }

  /** There are such printers and parsers, also of values that are no strings. */
  lemma CodecExists() returns (c: Codec)
    ensures c.Inverts() && c.parse("null") == Some(Null) && c.parse("nul") == None
  {
    c := Codec((v: Json) => if v.String? then ['"'] + v.text else "null",
               (raw: string) => if raw == "null" then Some(Null)
                                else if raw != "" && raw[0] == '"' then Some(String(raw[1..])) else None);
    forall text ensures c.parse(c.render(String(text))) == Some(String(text)) {
      assert (['"'] + text)[0] == '"' && (['"'] + text)[1..] == text;
    }
  }

  /** Persist, reload, persist again: the same role and the same blocks, for every message. */
  lemma ReloadIsStable(c: Codec, m: Message)
    requires c.Inverts()
    ensures ToStored(c, Reloaded(c, m)) == ToStored(c, m)
  {
    ReloadedIs(c, m);
    if m.role.Tool? {
      ValueInverts(c, m.content);
    } else {
      forall i | 0 <= i < |m.calls|
        ensures CallBlock(c, ReloadedCall(c, m.calls[i])) == CallBlock(c, m.calls[i])
      {
        ValueInverts(c, m.calls[i].args);
      }
      assert CallBlocks(c, ReloadedCalls(c, m.calls)) == CallBlocks(c, m.calls);
    }
  }

  function ReloadedTimes(c: Codec, m: Message, n: nat): Message {
    if n == 0 then m else Reloaded(c, ReloadedTimes(c, m, n - 1))
  }

  /** So is any number of reloads, also of what another writer stored. */
  lemma {:induction false} ReloadsAreStable(c: Codec, m: Message, d: Stored, n: nat)
    requires c.Inverts()
    ensures ToStored(c, ReloadedTimes(c, m, n)) == ToStored(c, m)
    ensures n > 0 ==> ReloadedTimes(c, m, n) == Reloaded(c, m)
    ensures ToStored(c, ToMessage(c, ToStored(c, ToMessage(c, d)))) == ToStored(c, ToMessage(c, d))
  {
    ReloadIsStable(c, ToMessage(c, d));
    if n > 0 {
      ReloadsAreStable(c, m, d, n - 1);
      ReloadIsStable(c, ReloadedTimes(c, m, n - 1));
    }
  }

  /** The message itself comes back unchanged exactly when its JSON texts are printed canonically
      and it carries no field its role does not use. */
  lemma ReloadIsIdentityIff(c: Codec, m: Message)
    requires c.Inverts()
    ensures Reloaded(c, m) == m <==>
            if m.role.Tool? then c.Canonical(m.content) && m.calls == [] && m.callId.Some?
            else (forall call :: call in m.calls ==> c.Canonical(call.args)) && m.callId.None?
  {
    ReloadedIs(c, m);
    forall raw: string ensures c.render(Value(c, raw)) == raw <==> c.Canonical(raw) {
      ValueInverts(c, raw);
    }
    if !m.role.Tool? {
      if forall call :: call in m.calls ==> c.Canonical(call.args) {
        assert forall i :: 0 <= i < |m.calls| ==> m.calls[i] in m.calls;
        assert ReloadedCalls(c, m.calls) == m.calls;
      }
      if ReloadedCalls(c, m.calls) == m.calls {
        forall call | call in m.calls ensures c.Canonical(call.args) {
          var i :| 0 <= i < |m.calls| && m.calls[i] == call;
          assert ReloadedCalls(c, m.calls)[i] == call;
        }
      }
    }
  }

  function ReloadedAll(c: Codec, ms: seq<Message>): seq<Message> {
    seq(|ms|, i requires 0 <= i < |ms| => Reloaded(c, ms[i]))
  }

  /** `r` has the role of `m`, the ids of its calls, and the id of its reply if it has one. */
  predicate Mirrors(m: Message, r: Message) {
    && r.role == m.role && r.Calls() == m.Calls()
    && (m.role.Tool? && m.callId.Some? ==> r.callId == m.callId)
    && (m.Calls() ==>
          |r.calls| == |m.calls| && forall i :: 0 <= i < |m.calls| ==> r.calls[i].id == m.calls[i].id)
  }

  predicate AllMirror(ms: seq<Message>, rs: seq<Message>) {
    |ms| == |rs| && forall i :: 0 <= i < |ms| ==> Mirrors(ms[i], rs[i])
  }

  /** Every tool message carries the id of the call it answers. */
  predicate Identified(ms: seq<Message>) {
    forall i :: 0 <= i < |ms| && ms[i].role.Tool? ==> ms[i].callId.Some?
  }

  lemma {:induction false} MirrorIsPaired(ms: seq<Message>, rs: seq<Message>)
    requires AllMirror(ms, rs) && Paired(ms)
    ensures Paired(rs)
    decreases |ms|
  {
    if ms != [] {
      assert Mirrors(ms[0], rs[0]);
      var k := if ms[0].Calls() then |ms[0].calls| else 0;
      if ms[0].Calls() { MirrorAnswers(ms[1..1 + k], rs[1..1 + k], ms[0], rs[0]); }
      MirrorIsPaired(ms[1 + k..], rs[1 + k..]);
    }
  }

  lemma MirrorAnswers(ms: seq<Message>, rs: seq<Message>, m: Message, r: Message)
    requires AllMirror(ms, rs) && Mirrors(m, r) && m.Calls() && Answers(ms, m.calls)
    ensures Answers(rs, r.calls)
  {
    forall i | 0 <= i < |rs| ensures rs[i].role.Tool? && rs[i].callId == Some(r.calls[i].id) {
      assert Mirrors(ms[i], rs[i]);
    }
  }

  lemma {:induction false} PairedIsMirrored(ms: seq<Message>, rs: seq<Message>)
    requires AllMirror(ms, rs) && Identified(ms) && Paired(rs)
    ensures Paired(ms)
    decreases |ms|
  {
    if ms != [] {
      assert Mirrors(ms[0], rs[0]);
      var k := if ms[0].Calls() then |ms[0].calls| else 0;
      if ms[0].Calls() { AnswersAreMirrored(ms[1..1 + k], rs[1..1 + k], ms[0], rs[0]); }
      PairedIsMirrored(ms[1 + k..], rs[1 + k..]);
    }
  }

  lemma AnswersAreMirrored(ms: seq<Message>, rs: seq<Message>, m: Message, r: Message)
    requires AllMirror(ms, rs) && Identified(ms) && Mirrors(m, r) && m.Calls() && Answers(rs, r.calls)
    ensures Answers(ms, m.calls)
  {
    forall i | 0 <= i < |ms| ensures ms[i].role.Tool? && ms[i].callId == Some(m.calls[i].id) {
      assert Mirrors(ms[i], rs[i]);
    }
  }

  lemma ReloadMirrors(c: Codec, tail: seq<Message>)
    ensures AllMirror(tail, ReloadedAll(c, tail))
  {
    forall i | 0 <= i < |tail| ensures Mirrors(tail[i], ReloadedAll(c, tail)[i]) { ReloadedIs(c, tail[i]); }
  }

  /** Call ids survive the store, and so does the pairing of calls and replies; and the store
      repairs none, as long as tool messages carry their id. */
  lemma PairingSurvives(c: Codec, tail: seq<Message>)
    ensures AllMirror(tail, ReloadedAll(c, tail))
    ensures Paired(tail) ==> Paired(ReloadedAll(c, tail))
    ensures Identified(tail) && Paired(ReloadedAll(c, tail)) ==> Paired(tail)
  {
    var all := ReloadedAll(c, tail);
    ReloadMirrors(c, tail);
    if Paired(tail) { MirrorIsPaired(tail, all); }
    if Identified(tail) && Paired(all) { PairedIsMirrored(tail, all); }
  }

  /** A tool message without an id is stored under a made-up one, and so can be paired by it. */
  lemma MissingIdIsInvented(c: Codec, content: string, name: string, args: string)
    ensures var call := Message(Assistant, "", [ToolCall("unknown", name, args)], None);
            var tail := [call, Message(Role.Tool, content, [], None)];
            !Paired(tail) && Paired(ReloadedAll(c, tail))
  {
    var call := Message(Assistant, "", [ToolCall("unknown", name, args)], None);
    var reply := Message(Role.Tool, content, [], None);
    var tail := [call, reply];
    ReloadedIs(c, call);
    ReloadedIs(c, reply);
    assert ReloadedAll(c, tail) == [Reloaded(c, call), Reloaded(c, reply)];
    OneCallOneReply(call, reply);
    OneCallOneReply(Reloaded(c, call), Reloaded(c, reply));
  }

  lemma OneCallOneReply(a: Message, b: Message)
    requires a.Calls() && |a.calls| == 1
    ensures Paired([a, b]) <==> b.role.Tool? && b.callId == Some(a.calls[0].id)
  {
    var tail := [a, b];
    assert tail[1..1 + |a.calls|] == [b] && tail[1 + |a.calls|..] == [];
    assert Paired(tail) <==> Answers([b], a.calls);
    if Answers([b], a.calls) { assert [b][0].role.Tool? && [b][0].callId == Some(a.calls[0].id); }
  }
}
