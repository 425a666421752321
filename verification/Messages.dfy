/** Conversation messages, and the pairing of tool calls with tool replies that every provider
    insists on. */
module Messages {
  import opened Wrappers

  const USIZE_MAX: nat := 0xFFFF_FFFF_FFFF_FFFF

  datatype Role = System | User | Assistant | Tool

  datatype ToolCall = ToolCall(id: string, name: string, args: string)

  datatype Message = Message(role: Role, content: string, calls: seq<ToolCall>, callId: Option<string>) {
    /** Opens a block of tool replies. */
    predicate Calls() { role.Assistant? && calls != [] }
  }

  /** A number as `format!` prints it. */
  function Decimal(n: nat): string {
    if n < 10 then ["0123456789"[n]] else Decimal(n / 10) + ["0123456789"[n % 10]]
  }

  function Keep(ms: seq<Message>, system: bool): seq<Message> {
    if ms == [] then []
    else (if ms[0].role.System? == system then [ms[0]] else []) + Keep(ms[1..], system)
  }

  function Systems(ms: seq<Message>): seq<Message> { Keep(ms, true) }

  /** The non-system tail of a conversation. */
  function TailOf(ms: seq<Message>): seq<Message> { Keep(ms, false) }

  lemma {:induction false} KeepConcat(a: seq<Message>, b: seq<Message>, system: bool)
    ensures Keep(a + b, system) == Keep(a, system) + Keep(b, system)
  {
    if a == [] {
      assert a + b == b;
    } else {
      assert (a + b)[1..] == a[1..] + b;
      KeepConcat(a[1..], b, system);
    }
  }

  lemma {:induction false} KeepUniform(ms: seq<Message>, system: bool)
    requires forall m :: m in ms ==> m.role.System? == system
    ensures Keep(ms, system) == ms && Keep(ms, !system) == []
  {
    if ms != [] {
      KeepUniform(ms[1..], system);
    }
  }

  lemma {:induction false} KeepMembers(ms: seq<Message>, system: bool)
    ensures forall m :: m in Keep(ms, system) ==> m in ms && m.role.System? == system
  {
    if ms != [] {
      KeepMembers(ms[1..], system);
    }
  }

  /** System messages first, tail after: the parts can be read back. */
  lemma PartsOf(systems: seq<Message>, tail: seq<Message>)
    requires forall m :: m in systems ==> m.role.System?
    requires forall m :: m in tail ==> !m.role.System?
    ensures Systems(systems + tail) == systems && TailOf(systems + tail) == tail
  {
    KeepConcat(systems, tail, true);
    KeepConcat(systems, tail, false);
    KeepUniform(systems, true);
    KeepUniform(tail, false);
  }

  // ---- pairing ---------------------------------------------------------------------------

  /** `replies` answers `calls` one for one, in order, by id. */
  predicate Answers(replies: seq<Message>, calls: seq<ToolCall>) {
    |replies| == |calls|
    && forall i :: 0 <= i < |calls| ==> replies[i].role.Tool? && replies[i].callId == Some(calls[i].id)
  }

  /** Every assistant message with k calls is immediately followed by its k replies, and tool
      messages occur nowhere else. */
  predicate Paired(tail: seq<Message>)
    decreases |tail|
  {
    if tail == [] then true
    else if tail[0].Calls() then
      var k := |tail[0].calls|;
      1 + k <= |tail| && Answers(tail[1..1 + k], tail[0].calls) && Paired(tail[1 + k..])
    else !tail[0].role.Tool? && Paired(tail[1..])
  }

  /** How many messages the first one of a paired tail brings with it, itself included. */
  function BlockLength(m: Message): nat { if m.Calls() then 1 + |m.calls| else 1 }

  /** `block` is an assistant message with its replies, or a message that needs none. */
  predicate Block(block: seq<Message>) {
    && block != [] && |block| == BlockLength(block[0])
    && (if block[0].Calls() then Answers(block[1..], block[0].calls) else !block[0].role.Tool?)
  }

  lemma PairedCons(block: seq<Message>, tail: seq<Message>)
    requires block != [] && |block| == BlockLength(block[0])
    ensures Paired(block + tail) <==> Block(block) && Paired(tail)
  {
    var k := |block|;
    assert (block + tail)[1..k] == block[1..];
    assert (block + tail)[k..] == tail;
  }

  lemma {:induction false} PairedConcat(a: seq<Message>, b: seq<Message>)
    requires Paired(a) && Paired(b)
    ensures Paired(a + b)
    decreases |a|
  {
    if a == [] {
      assert a + b == b;
    } else {
      var k := BlockLength(a[0]);
      assert a[..k] + a[k..] == a && a[..k] + (a[k..] + b) == a + b;
      PairedCons(a[..k], a[k..]);
      PairedConcat(a[k..], b);
      PairedCons(a[..k], a[k..] + b);
    }
  }

  /** A paired tail may be cut before any message that is not a tool reply. */
  lemma {:induction false} PairedSuffix(tail: seq<Message>, i: nat)
    requires Paired(tail) && i <= |tail| && (i < |tail| ==> !tail[i].role.Tool?)
    ensures Paired(tail[i..])
    decreases |tail|
  {
    if i > 0 {
      var k := if tail[0].Calls() then |tail[0].calls| else 0;
      assert forall x :: 1 <= x <= k ==> tail[x] == tail[1..1 + k][x - 1];
      if i > k {
        PairedSuffix(tail[1 + k..], i - 1 - k);
        assert tail[1 + k..][i - 1 - k..] == tail[i..];
      }
    }
  }

  /** A tail cut inside a block of replies is never paired: the cut is safe exactly where the
      next message is not a reply. */
  lemma CutSafeIff(tail: seq<Message>, i: nat)
    requires Paired(tail) && i <= |tail|
    ensures Paired(tail[i..]) <==> (i < |tail| ==> !tail[i].role.Tool?)
  {
    if i == |tail| || !tail[i].role.Tool? {
      PairedSuffix(tail, i);
    } else {
      assert tail[i..][0] == tail[i];
    }
  }
}
