/** History trimming: the fixed window `slide` and the summarising `compact`. */
module History {
  import opened Wrappers
  import opened Messages

  // ---- slide -----------------------------------------------------------------------------

  function StripTools(tail: seq<Message>): seq<Message> {
    if tail != [] && tail[0].role.Tool? then StripTools(tail[1..]) else tail
  }

  function Trim(tail: seq<Message>, window: nat): seq<Message> {
    if |tail| <= window then tail else StripTools(tail[|tail| - window..])
  }

  function Slid(messages: seq<Message>, window: nat): seq<Message> {
    if window == 0 then messages
    else Systems(messages) + Trim(TailOf(messages), window)
  }

  method Slide(messages: seq<Message>, window: nat) returns (out: seq<Message>)
    ensures out == Slid(messages, window)
  {
    if window == 0 { return messages; }
    var systems, tail := Systems(messages), TailOf(messages);
    if |tail| <= window { return systems + tail; }
    tail := tail[|tail| - window..];
    while tail != [] && tail[0].role.Tool?
      invariant StripTools(tail) == Trim(TailOf(messages), window)
    {
      tail := tail[1..];
    }
    return systems + tail;
  }

  /** `i` starts the longest suffix of at most `window` messages that is empty or does not
      start with a tool reply. */
  predicate LongestCleanCut(tail: seq<Message>, window: nat, i: nat) {
    && i <= |tail| && |tail| - i <= window
    && (i < |tail| ==> !tail[i].role.Tool?)
    && (forall j :: 0 <= j < i && |tail| - j <= window ==> tail[j].role.Tool?)
  }

  lemma {:induction false} StripToolsCut(tail: seq<Message>) returns (i: nat)
    ensures i <= |tail| && StripTools(tail) == tail[i..]
    ensures (i < |tail| ==> !tail[i].role.Tool?)
    ensures forall j :: 0 <= j < i ==> tail[j].role.Tool?
  {
    i := 0;
    if tail != [] && tail[0].role.Tool? {
      var k := StripToolsCut(tail[1..]);
      i := k + 1;
      assert tail[1..][k..] == tail[i..];
      forall j | 0 <= j < i ensures tail[j].role.Tool? {
        if j > 0 { assert tail[j] == tail[1..][j - 1]; }
      }
    }
  }

  /** What the trimmed tail is, and exactly when it can start with a dangling reply: only when
      the tail already fitted and started with one. */
  lemma TrimCut(tail: seq<Message>, window: nat) returns (i: nat)
    ensures i <= |tail| && Trim(tail, window) == tail[i..]
    ensures LongestCleanCut(tail, window, i) <==> !(tail != [] && |tail| <= window && tail[0].role.Tool?)
    ensures |tail| <= window ==> i == 0
  {
    i := 0;
    if |tail| > window {
      var from := |tail| - window;
      var k := StripToolsCut(tail[from..]);
      i := from + k;
      assert tail[from..][k..] == tail[i..];
      forall j | 0 <= j < i && |tail| - j <= window ensures tail[j].role.Tool? {
        assert tail[j] == tail[from..][j - from];
      }
      if i < |tail| { assert tail[i] == tail[from..][k]; }
    }
  }

  /** There is only one such cut, so the property pins the result down. */
  lemma LongestCleanCutUnique(tail: seq<Message>, window: nat, i: nat, j: nat)
    requires LongestCleanCut(tail, window, i) && LongestCleanCut(tail, window, j)
    ensures i == j
  {}

  /** The parts of a slid conversation: all system messages, in order, and the trimmed tail. */
  lemma SlidParts(messages: seq<Message>, window: nat)
    requires window >= 1
    ensures Systems(Slid(messages, window)) == Systems(messages)
    ensures TailOf(Slid(messages, window)) == Trim(TailOf(messages), window)
  {
    KeepMembers(messages, true);
    KeepMembers(messages, false);
    var i := TrimCut(TailOf(messages), window);
    PartsOf(Systems(messages), Trim(TailOf(messages), window));
  }

  /** Sliding to `a` and then to a smaller window `b` is sliding to `b`. */
  lemma SlideCompose(messages: seq<Message>, a: nat, b: nat)
    requires 1 <= b <= a
    ensures Slid(Slid(messages, a), b) == Slid(messages, b)
  {
    SlidParts(messages, a);
    TrimCompose(TailOf(messages), a, b);
  }

  lemma TrimCompose(tail: seq<Message>, a: nat, b: nat)
    requires 1 <= b <= a
    ensures Trim(Trim(tail, a), b) == Trim(tail, b)
  {
    if |tail| > a {
      var i := TrimCut(tail, a);
      var j := TrimCut(tail, b);
      var k := TrimCut(tail[i..], b);
      assert tail[i..][k..] == tail[i + k..];
      forall x | 0 <= x < i + k && |tail| - x <= b ensures tail[x].role.Tool? {
        if x >= i { assert tail[x] == tail[i..][x - i]; }
      }
      if i + k < |tail| { assert tail[i + k] == tail[i..][k]; }
      LongestCleanCutUnique(tail, b, i + k, j);
    }
  }

  lemma SlideIdempotent(messages: seq<Message>, window: nat)
    ensures Slid(Slid(messages, window), window) == Slid(messages, window)
  {
    if window > 0 { SlideCompose(messages, window, window); }
  }

  lemma SlideKeepsPairing(messages: seq<Message>, window: nat)
    requires Paired(TailOf(messages))
    ensures Paired(TailOf(Slid(messages, window)))
    ensures Systems(Slid(messages, window)) == Systems(messages)
  {
    if window > 0 {
      SlidParts(messages, window);
      var i := TrimCut(TailOf(messages), window);
      PairedSuffix(TailOf(messages), i);
    }
  }

  // ---- compact ---------------------------------------------------------------------------

  datatype Outcome = Compacted | FellBack | NoOp

  /** What the summariser streams back, or its failure. */
  datatype Summary = Text(text: string) | Unavailable

  /** The Unicode White_Space property, as `str::trim` uses it. */
  predicate Whitespace(c: char) {
    var n := c as int;
    9 <= n <= 13 || n == 0x20 || n == 0x85 || n == 0xA0 || n == 0x1680
    || 0x2000 <= n <= 0x200A || n == 0x2028 || n == 0x2029 || n == 0x202F || n == 0x205F || n == 0x3000
  }

  predicate Blank(s: string) { forall i :: 0 <= i < |s| ==> Whitespace(s[i]) }

  function SummaryNote(dropped: nat, text: string): Message {
    Message(System,
            "[Compacted summary of " + Decimal(dropped) + " earlier messages]\n\n" + text, [], None)
  }

  /** `split` moves back past tool replies, but never from the end or to before the start. */
  function WalkedBack(tail: seq<Message>, split: nat): (r: nat)
    ensures r <= split
  {
    if 0 < split < |tail| && tail[split].role.Tool? then WalkedBack(tail, split - 1) else split
  }

  method WalkSplitBackPastToolPairs(tail: seq<Message>, from: nat) returns (split: nat)
    ensures split == WalkedBack(tail, from)
  {
    split := from;
    while 0 < split < |tail|
      decreases split
      invariant WalkedBack(tail, split) == WalkedBack(tail, from)
    {
      if tail[split].role.Tool? {
        split := split - 1;
        continue;
      }
      // The second rule of the program: the boundary separates an assistant with calls from a
      // reply. A reply at the boundary was already handled above, so it never fires.
      var prev := tail[split - 1];
      var nextIsReply := tail[split].role.Tool?;
      if prev.Calls() && nextIsReply {
        assert false;
      }
      break;
    }
  }

  /** The walk ends at the greatest index at most `from` that is not a tool reply; at `from`
      itself when that is the end; at 0 when there is none. */
  lemma {:induction false} WalkedBackIsGreatest(tail: seq<Message>, from: nat)
    requires from <= |tail|
    ensures var split := WalkedBack(tail, from);
            && split <= from
            && (0 < split < |tail| ==> !tail[split].role.Tool?)
            && (forall j :: split < j <= from && j < |tail| ==> tail[j].role.Tool?)
            && (from == |tail| ==> split == from)
  {
    if 0 < from < |tail| && tail[from].role.Tool? {
      WalkedBackIsGreatest(tail, from - 1);
    }
  }

  /** The specification of `compact`; `summarise` is whatever the backend makes of the head. */
  function CompactResult(messages: seq<Message>, keepRecent: nat,
                         summarise: seq<Message> -> Summary): (seq<Message>, Outcome)
  {
    var systems, tail := Systems(messages), TailOf(messages);
    if |tail| <= keepRecent then (systems + tail, NoOp)
    else
      var split := WalkedBack(tail, |tail| - keepRecent);
      if split == 0 then (systems + tail, NoOp)
      else
        match summarise(tail[..split])
        case Text(text) =>
          if Blank(text) then (Slid(systems + tail, keepRecent + 1), FellBack)
          else (systems + [SummaryNote(split, text)] + tail[split..], Compacted)
        case Unavailable => (Slid(systems + tail, keepRecent + 1), FellBack)
  }

  method Compact(messages: seq<Message>, keepRecent: nat, summarise: seq<Message> -> Summary)
    returns (out: seq<Message>, outcome: Outcome)
    ensures (out, outcome) == CompactResult(messages, keepRecent, summarise)
  {
    hide Systems, TailOf, Slid, Blank, SummaryNote;
    var systems, tail := Systems(messages), TailOf(messages);
    if |tail| <= keepRecent { return systems + tail, NoOp; }
    var split := WalkSplitBackPastToolPairs(tail, |tail| - keepRecent);
    var head, recent := tail[..split], tail[split..];
    if head == [] { assert recent == tail; return systems + recent, NoOp; }
    var summary := summarise(head);
    if summary.Text? && !Blank(summary.text) {
      out := systems + [SummaryNote(|head|, summary.text)];
      WalkedBackIsGreatest(tail, |tail| - keepRecent);
      assert recent != [] ==> recent[0] == tail[split] && split < |tail|;
      // Nothing is ever stripped here: `recent` does not start with a reply.
      while recent != [] && recent[0].role.Tool?
        invariant StripTools(recent) == tail[split..]
        decreases |recent|
      {
        recent := recent[1..];
      }
      return out + recent, Compacted;
    }
    out := Slide(systems + tail, keepRecent + 1);
    return out, FellBack;
  }

  /** A system message that says how many messages it stands for and ends with their summary. */
  predicate Summarises(note: Message, dropped: nat, text: string) {
    var start := "[Compacted summary of " + Decimal(dropped) + " ";
    && note.role.System? && note.calls == [] && note.callId.None?
    && |start| + |text| <= |note.content|
    && note.content[..|start|] == start && note.content[|note.content| - |text|..] == text
  }

  lemma NoteSummarises(dropped: nat, text: string)
    ensures Summarises(SummaryNote(dropped, text), dropped, text)
  {
    var start, rest := "[Compacted summary of " + Decimal(dropped) + " ", "earlier messages]\n\n";
    assert SummaryNote(dropped, text).content == start + (rest + text);
  }

  lemma SummarisedParts(messages: seq<Message>, split: nat, text: string)
    requires split <= |TailOf(messages)|
    ensures var out := Systems(messages) + [SummaryNote(split, text)] + TailOf(messages)[split..];
            && Systems(out) == Systems(messages) + [SummaryNote(split, text)]
            && TailOf(out) == TailOf(messages)[split..]
  {
    KeepMembers(messages, true);
    KeepMembers(messages, false);
    PartsOf(Systems(messages) + [SummaryNote(split, text)], TailOf(messages)[split..]);
  }

  /** Where a tail is cut: the greatest index at most len - keepRecent that is not a tool reply,
      and len itself when keepRecent is 0. */
  predicate CutsAt(tail: seq<Message>, keepRecent: nat, split: nat) {
    && 0 < split <= |tail| - keepRecent
    && (split < |tail| ==> !tail[split].role.Tool?)
    && (forall j :: split < j <= |tail| - keepRecent && j < |tail| ==> tail[j].role.Tool?)
    && (keepRecent == 0 ==> split == |tail|)
  }

  lemma WalkCuts(tail: seq<Message>, keepRecent: nat)
    requires keepRecent < |tail| && WalkedBack(tail, |tail| - keepRecent) > 0
    ensures CutsAt(tail, keepRecent, WalkedBack(tail, |tail| - keepRecent))
  {
    WalkedBackIsGreatest(tail, |tail| - keepRecent);
    hide WalkedBack;
  }

  /** A compaction that has something to summarise asks about exactly the messages before that
      cut, and succeeds if and only if the answer is a text that is not blank. */
  lemma CompactsWhen(messages: seq<Message>, keepRecent: nat, summarise: seq<Message> -> Summary)
    returns (split: nat)
    requires !CompactResult(messages, keepRecent, summarise).1.NoOp?
    ensures var tail, outcome := TailOf(messages), CompactResult(messages, keepRecent, summarise).1;
            && CutsAt(tail, keepRecent, split)
            && (outcome.Compacted? <==> var summary := summarise(tail[..split]);
                                        summary.Text? && !Blank(summary.text))
  {
    var tail := TailOf(messages);
    split := WalkedBack(tail, |tail| - keepRecent);
    WalkCuts(tail, keepRecent);
    hide Systems, TailOf, SummaryNote, Blank, Slid, WalkedBack, CutsAt;
  }

  /** A successful compaction keeps every system message, adds one summary of what stands before
      the cut and keeps the rest verbatim; so at least keepRecent messages survive. */
  lemma CompactedShape(messages: seq<Message>, keepRecent: nat, summarise: seq<Message> -> Summary)
    returns (split: nat)
    requires CompactResult(messages, keepRecent, summarise).1.Compacted?
    ensures var tail := TailOf(messages);
            var out := CompactResult(messages, keepRecent, summarise).0;
            && CutsAt(tail, keepRecent, split)
            && summarise(tail[..split]).Text?
            && |Systems(out)| == |Systems(messages)| + 1 && Systems(out)[..|Systems(messages)|] == Systems(messages)
            && Summarises(Systems(out)[|Systems(messages)|], split, summarise(tail[..split]).text)
            && TailOf(out) == tail[split..] && keepRecent <= |TailOf(out)|
  {
    var tail := TailOf(messages);
    split := WalkedBack(tail, |tail| - keepRecent);
    WalkCuts(tail, keepRecent);
    assert split <= |tail| - keepRecent;
    SummarisedParts(messages, split, summarise(tail[..split]).text);
    NoteSummarises(split, summarise(tail[..split]).text);
    hide Systems, TailOf, SummaryNote, Blank, Slid, Summarises, WalkedBack, CutsAt;
  }

  /** A compaction that did nothing, or fell back, changes no system message; the fallback is
      a slide, and nothing is lost when there is nothing to do. */
  lemma NotCompactedShape(messages: seq<Message>, keepRecent: nat, summarise: seq<Message> -> Summary)
    requires !CompactResult(messages, keepRecent, summarise).1.Compacted?
    ensures var (out, outcome) := CompactResult(messages, keepRecent, summarise);
            && Systems(out) == Systems(messages)
            && TailOf(out) == (if outcome.NoOp? then TailOf(messages)
                               else Trim(TailOf(messages), keepRecent + 1))
  {
    KeepMembers(messages, true);
    KeepMembers(messages, false);
    PartsOf(Systems(messages), TailOf(messages));
    SlidParts(Systems(messages) + TailOf(messages), keepRecent + 1);
  }

  /** Whatever the summariser does, pairing survives, and exactly the successful compactions
      add a system message. */
  lemma CompactKeepsPairing(messages: seq<Message>, keepRecent: nat, summarise: seq<Message> -> Summary)
    requires Paired(TailOf(messages))
    ensures var (out, outcome) := CompactResult(messages, keepRecent, summarise);
            && Paired(TailOf(out))
            && |Systems(out)| == |Systems(messages)| + if outcome.Compacted? then 1 else 0
  {
    var tail := TailOf(messages);
    if CompactResult(messages, keepRecent, summarise).1.Compacted? {
      var split := CompactedShape(messages, keepRecent, summarise);
      PairedSuffix(tail, split);
    } else {
      NotCompactedShape(messages, keepRecent, summarise);
      var i := TrimCut(tail, keepRecent + 1);
      PairedSuffix(tail, i);
    }
  }

  lemma WalksToStartIff(tail: seq<Message>, from: nat)
    requires 0 < from <= |tail|
    ensures WalkedBack(tail, from) == 0 <==> from < |tail| && forall j :: 0 < j <= from ==> tail[j].role.Tool?
  {
    WalkedBackIsGreatest(tail, from);
    hide WalkedBack;
  }

  /** In a paired conversation longer than keepRecent there is always something to summarise
      before the cut, unless the first block of replies reaches into the recent part: the
      exact condition under which `compact` gives up without asking the model. */
  lemma CompactGivesUpIff(messages: seq<Message>, keepRecent: nat, summarise: seq<Message> -> Summary)
    ensures var tail := TailOf(messages);
            CompactResult(messages, keepRecent, summarise).1.NoOp? <==>
              || |tail| <= keepRecent
              || (0 < keepRecent && forall j :: 0 < j <= |tail| - keepRecent ==> tail[j].role.Tool?)
  {
    hide Systems, TailOf, WalkedBack, Slid, Blank, SummaryNote;
    var tail := TailOf(messages);
    if keepRecent < |tail| {
      WalksToStartIff(tail, |tail| - keepRecent);
    }
  }
}
