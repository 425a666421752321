/** What holds in every run of the Agent Client Protocol server. */
module AcpSafety {
  import opened Wrappers
  import opened AcpServer

  // ---- one turn per session --------------------------------------------------------------

  /** Exactly the sessions with an unfinished turn are registered, each under that turn; so at
      most one turn per session is in flight. Earlier turns of a session have finished. */
  predicate Locks(s: State) {
    && (forall x :: x in s.cancels ==>
          s.cancels[x] in s.turns && s.turns[s.cancels[x]].session == x && !s.turns[s.cancels[x]].pc.Finished?)
    && (forall t :: t in s.turns && !s.turns[t].pc.Finished? ==>
          s.turns[t].session in s.cancels && s.cancels[s.turns[t].session] == t)
    && (forall t, u :: t in s.turns && u in s.turns && t < u && s.turns[t].session == s.turns[u].session ==>
          s.turns[t].pc.Finished?)
    && (forall t :: t in s.turns ==> t < s.next && (s.pc.Owes() ==> t < s.next - 1))
  }

  /** A step of turn `t` that does not end it. */
  predicate GoesOn(s: State, s1: State, t: nat) {
    && t in s.turns && t in s1.turns && s1.turns == s.turns[t := s1.turns[t]]
    && s1.turns[t].session == s.turns[t].session && s1.turns[t].pc.Finished? == s.turns[t].pc.Finished?
    && s1.cancels == s.cancels && s1.next == s.next && s1.pc == s.pc
  }

  lemma GoesOnKeepsLocks(s: State, s1: State, t: nat)
    requires Locks(s) && GoesOn(s, s1, t)
    ensures Locks(s1)
  {}

  lemma TurnGoesOn(s: State, t: nat, step: Step)
    requires t in s.turns && TurnStep(s, t, step).Some? && !step.Release?
    ensures GoesOn(s, TurnStep(s, t, step).value, t)
  {}

  lemma ReleaseKeepsLocks(s: State, t: nat)
    requires Locks(s) && t in s.turns && s.turns[t].pc.Releasing?
    ensures Locks(SetTurn(s, t, s.turns[t].(pc := Finished)).(cancels := s.cancels - {s.turns[t].session}))
  {}

  lemma TurnKeepsLocks(s: State, t: nat, step: Step)
    requires Locks(s) && t in s.turns && TurnStep(s, t, step).Some?
    ensures Locks(TurnStep(s, t, step).value)
  {
    hide Locks;
    if step.Release? {
      ReleaseKeepsLocks(s, t);
    } else {
      TurnGoesOn(s, t, step);
      GoesOnKeepsLocks(s, TurnStep(s, t, step).value, t);
    }
  }

  /** At most, tokens were fired. */
  predicate SameTurns(s: State, s1: State) {
    && s1.cancels == s.cancels && s1.turns.Keys == s.turns.Keys
    && forall t :: t in s.turns ==> s1.turns[t] == s.turns[t].(cancelled := s1.turns[t].cancelled)
  }

  lemma SameTurnsKeepLocks(s: State, s1: State)
    requires Locks(s) && SameTurns(s, s1) && s1.next == s.next && (s1.pc.Owes() ==> s.pc.Owes())
    ensures Locks(s1)
  {}

  /** The read loop either leaves the turns alone or begins one. */
  predicate Begins(s: State) { s.pc.TakingTurn? && s.pc.session !in s.cancels }

  lemma ReaderSameTurns(s: State)
    requires s.next > 0 && ReaderStep(s).Some? && !Begins(s)
    ensures var s1 := ReaderStep(s).value;
            SameTurns(s, s1) && s1.next == s.next && (s1.pc.Owes() ==> s.pc.Owes())
  {}

  lemma NewTurnKeepsLocks(s: State, s1: State, turn: Turn)
    requires Locks(s) && s.next > 0 && s.pc.Owes() && turn.session !in s.cancels && !turn.pc.Finished?
    requires s1.turns == s.turns[s.next - 1 := turn] && s1.cancels == s.cancels[turn.session := s.next - 1]
    requires s1.next == s.next && !s1.pc.Owes()
    ensures Locks(s1)
  {}

  lemma BeginKeepsLocks(s: State)
    requires Locks(s) && s.next > 0 && Begins(s)
    ensures Locks(ReaderStep(s).value)
  {
    hide Locks;
    var s1 := ReaderStep(s).value;
    NewTurnKeepsLocks(s, s1, s1.turns[s.next - 1]);
  }

  lemma ReaderKeepsLocks(s: State)
    requires Locks(s) && s.next > 0 && ReaderStep(s).Some?
    ensures Locks(ReaderStep(s).value)
  {
    if Begins(s) {
      BeginKeepsLocks(s);
    } else {
      ReaderSameTurns(s);
      SameTurnsKeepLocks(s, ReaderStep(s).value);
    }
  }

  lemma DispatchOnlyParses(s: State, l: Line)
    ensures var s1 := Dispatch(s, l);
            s1.turns == s.turns && s1.cancels == s.cancels && s1.next == s.next && s1.out == s.out
  {}

  lemma DispatchKeepsLocks(s: State, l: Line)
    requires Locks(s) && s.pc.Reading?
    ensures Locks(Dispatch(s.(next := s.next + 1), l))
  {
    DispatchOnlyParses(s.(next := s.next + 1), l);
  }

  lemma ShutdownSameTurns(s: State)
    requires Shutdown(s).Some?
    ensures var s1 := Shutdown(s).value;
            SameTurns(s, s1) && s1.next == s.next && s1.out == s.out && !s1.pc.Owes()
  {}

  lemma LocksKept(lines: seq<Line>, s: State, step: Step)
    requires Locks(s) && Next(lines, s, step).Some?
    ensures Locks(Next(lines, s, step).value)
  {
    hide Locks, TurnStep, ReaderStep, Shutdown, Dispatch;
    match step
    case Read => DispatchKeepsLocks(s, lines[s.next]);
    case Proceed =>
      if s.pc.Reading? || s.pc.Over() {
        ShutdownSameTurns(s);
        SameTurnsKeepLocks(s, Next(lines, s, step).value);
      } else {
        ReaderKeepsLocks(s);
      }
    case Push(t, _) => TurnKeepsLocks(s, t, step);
    case Receive(t) => TurnKeepsLocks(s, t, step);
    case Return(t, _) => TurnKeepsLocks(s, t, step);
    case Write(t) => TurnKeepsLocks(s, t, step);
    case Release(t) => TurnKeepsLocks(s, t, step);
  }

  // ---- one response per request ----------------------------------------------------------

  function Responses(out: seq<Out>, i: nat): nat {
    if out == [] then 0
    else Responses(out[..|out| - 1], i)
         + if out[|out| - 1].Response? && out[|out| - 1].line == i then 1 else 0
  }

  lemma ResponsesAppend(out: seq<Out>, o: Out, i: nat)
    ensures Responses(out + [o], i) == Responses(out, i) + if o.Response? && o.line == i then 1 else 0
  {
    assert (out + [o])[..|out|] == out;
  }

  /** The response to line `i` is still owed, by the read loop or by its turn. */
  predicate Owed(s: State, i: nat) {
    || (s.pc.Owes() && i + 1 == s.next)
    || (i in s.turns && !s.turns[i].pc.Answered())
  }

  /** What the read loop is doing fits the line it read last. */
  predicate PcFits(lines: seq<Line>, s: State) {
    && s.next <= |lines|
    && (s.pc.Owes() || s.pc.Cancelling? ==> s.next > 0)
    && (s.pc.Owes() ==> Answerable(lines[s.next - 1]))
    && (match s.pc
        case Replying(id, _) => id == IdOf(lines[s.next - 1])
        case AddingSession(_, id) => Some(id) == IdOf(lines[s.next - 1])
        case CheckingSession(_, id) => Some(id) == IdOf(lines[s.next - 1])
        case TakingTurn(_, id) => Some(id) == IdOf(lines[s.next - 1])
        case _ => true)
    && (forall t :: t in s.turns ==>
          t < s.next && Answerable(lines[t]) && Some(s.turns[t].id) == IdOf(lines[t]))
  }

  predicate Balanced(lines: seq<Line>, s: State, i: nat) {
    && s.next <= |lines|
    && Responses(s.out, i) == (if i < s.next && Answerable(lines[i]) && !Owed(s, i) then 1 else 0)
  }

  /** Every response carries the id of the line it answers. */
  predicate Addressed(lines: seq<Line>, out: seq<Out>) {
    forall q :: 0 <= q < |out| && out[q].Response? ==>
      out[q].line < |lines| && Answerable(lines[out[q].line]) && out[q].id == IdOf(lines[out[q].line])
  }

  predicate Replies(lines: seq<Line>, s: State, i: nat) {
    PcFits(lines, s) && Balanced(lines, s, i) && Addressed(lines, s.out)
  }

  /** Line `i`'s account is balanced again if each response added was owed and no longer is. */
  lemma AnswersStep(lines: seq<Line>, s: State, s1: State, i: nat, added: seq<Out>)
    requires Balanced(lines, s, i) && s1.next == s.next && s1.out == s.out + added && |added| <= 1
    requires |added| == 1 && added[0].Response? && added[0].line == i ==>
               i < s.next && Answerable(lines[i]) && Owed(s, i) && !Owed(s1, i)
    requires !(|added| == 1 && added[0].Response? && added[0].line == i) ==> (Owed(s1, i) <==> Owed(s, i))
    ensures Balanced(lines, s1, i)
  {
    if added == [] { assert s1.out == s.out; } else { ResponsesAppend(s.out, added[0], i); }
  }

  /** What a turn's step may write, and what becomes of the turn. */
  predicate TurnWrites(s: State, s1: State, t: nat, added: seq<Out>)
    requires t in s.turns
  {
    && t in s1.turns && s1.turns == s.turns[t := s1.turns[t]] && s1.turns[t].id == s.turns[t].id
    && s1.pc == s.pc && s1.next == s.next && s1.out == s.out + added && |added| <= 1
    && var answers := |added| == 1 && added[0].Response?;
       && (answers ==>
             && s.turns[t].pc.Answering? && s1.turns[t].pc.Answered()
             && added[0].line == t && added[0].id == Some(s.turns[t].id))
       && (!answers ==> s1.turns[t].pc.Answered() == s.turns[t].pc.Answered())
  }

  lemma TurnStepWrites(s: State, t: nat, step: Step) returns (added: seq<Out>)
    requires t in s.turns && TurnStep(s, t, step).Some?
    ensures TurnWrites(s, TurnStep(s, t, step).value, t, added)
  {
    var s1 := TurnStep(s, t, step).value;
    added := s1.out[|s.out|..];
    assert s1.out == s.out + added;
  }

  lemma TurnKeepsReplies(lines: seq<Line>, s: State, t: nat, step: Step, i: nat)
    requires Locks(s) && Replies(lines, s, i) && t in s.turns && TurnStep(s, t, step).Some?
    ensures Replies(lines, TurnStep(s, t, step).value, i)
  {
    var added := TurnStepWrites(s, t, step);
    WritesKeepReplies(lines, s, TurnStep(s, t, step).value, t, i, added);
  }

  lemma WritesKeepReplies(lines: seq<Line>, s: State, s1: State, t: nat, i: nat, added: seq<Out>)
    requires Locks(s) && Replies(lines, s, i) && t in s.turns && TurnWrites(s, s1, t, added)
    ensures Replies(lines, s1, i)
  {
    WritesKeepFit(lines, s, s1, t, added);
    AnswersStep(lines, s, s1, i, added);
  }

  lemma WritesKeepFit(lines: seq<Line>, s: State, s1: State, t: nat, added: seq<Out>)
    requires PcFits(lines, s) && Addressed(lines, s.out) && t in s.turns && TurnWrites(s, s1, t, added)
    ensures PcFits(lines, s1) && Addressed(lines, s1.out)
  {
    assert s1.turns.Keys == s.turns.Keys;
    assert added != [] ==> s1.out == s.out + [added[0]];
  }

  lemma ReaderKeepsReplies(lines: seq<Line>, s: State, i: nat)
    requires Locks(s) && Replies(lines, s, i) && s.next > 0 && ReaderStep(s).Some?
    ensures Replies(lines, ReaderStep(s).value, i)
  {
    if Begins(s) {
      BeginKeepsReplies(lines, s, i);
    } else {
      ReaderSameTurns(s);
      var s1 := ReaderStep(s).value;
      var added := if s.pc.Replying? then [Response(s.next - 1, s.pc.id, s.pc.body)] else [];
      SameTurnsKeepReplies(lines, s, s1, i, added);
    }
  }

  lemma SameTurnsKeepReplies(lines: seq<Line>, s: State, s1: State, i: nat, added: seq<Out>)
    requires Locks(s) && Replies(lines, s, i) && SameTurns(s, s1) && s1.next == s.next
    requires PcFits(lines, s1) && s1.out == s.out + added
    requires added == if s.pc.Replying? then [Response(s.next - 1, s.pc.id, s.pc.body)] else []
    requires s1.pc.Owes() <==> s.pc.Owes() && !s.pc.Replying?
    ensures Replies(lines, s1, i)
  {
    AnswersStep(lines, s, s1, i, added);
  }

  lemma BeginKeepsReplies(lines: seq<Line>, s: State, i: nat)
    requires Locks(s) && Replies(lines, s, i) && s.next > 0 && Begins(s)
    ensures Replies(lines, ReaderStep(s).value, i)
  {
    var s1 := ReaderStep(s).value;
    assert s1.out == s.out + [];
    AnswersStep(lines, s, s1, i, []);
  }

  lemma ReadKeepsReplies(lines: seq<Line>, s: State, i: nat)
    requires Locks(s) && Replies(lines, s, i) && s.pc.Reading? && s.next < |lines|
    ensures Replies(lines, Dispatch(s.(next := s.next + 1), lines[s.next]), i)
  {
    DispatchOnlyParses(s.(next := s.next + 1), lines[s.next]);
  }

  lemma ShutdownKeepsReplies(lines: seq<Line>, s: State, i: nat)
    requires Locks(s) && Replies(lines, s, i) && (s.pc.Reading? || s.pc.Over()) && Shutdown(s).Some?
    ensures Replies(lines, Shutdown(s).value, i)
  {
    var s1 := Shutdown(s).value;
    ShutdownSameTurns(s);
    assert s1.out == s.out + [];
    SameTurnsKeepReplies(lines, s, s1, i, []);
  }

  lemma RepliesKept(lines: seq<Line>, s: State, step: Step, i: nat)
    requires Locks(s) && Replies(lines, s, i) && Next(lines, s, step).Some?
    ensures Replies(lines, Next(lines, s, step).value, i)
  {
    match step
    case Read => ReadKeepsReplies(lines, s, i);
    case Proceed =>
      if s.pc.Reading? || s.pc.Over() { ShutdownKeepsReplies(lines, s, i); } else { ReaderKeepsReplies(lines, s, i); }
    case Push(t, _) => TurnKeepsReplies(lines, s, t, step, i);
    case Receive(t) => TurnKeepsReplies(lines, s, t, step, i);
    case Return(t, _) => TurnKeepsReplies(lines, s, t, step, i);
    case Write(t) => TurnKeepsReplies(lines, s, t, step, i);
    case Release(t) => TurnKeepsReplies(lines, s, t, step, i);
  }

  // ---- the updates of a turn -------------------------------------------------------------

  /** The updates written for the prompt on line `t`, in order. */
  function Updates(out: seq<Out>, t: nat): seq<nat> {
    if out == [] then []
    else Updates(out[..|out| - 1], t)
         + if out[|out| - 1].Update? && out[|out| - 1].line == t then [out[|out| - 1].update] else []
  }

  lemma UpdatesAppend(out: seq<Out>, o: Out, t: nat)
    ensures Updates(out + [o], t) == Updates(out, t) + if o.Update? && o.line == t then [o.update] else []
  {
    assert (out + [o])[..|out|] == out;
  }

  function InHand(pc: TurnPc): seq<nat> { if pc.Emitting? then [pc.update] else [] }

  /** Conservation: what was written, is being written and is buffered is what was sent, in
      order; from the response on, all that the delegate sent before it returned was written. */
  predicate StreamOf(turn: Turn, written: seq<nat>) {
    && written + (InHand(turn.pc) + turn.queue) == turn.pushed
    && turn.atReturn <= |turn.pushed|
    && (turn.pc.Answering? || turn.pc.Answered() ==> turn.atReturn <= |written|)
  }

  predicate Streams(s: State, t: nat) {
    if t in s.turns then StreamOf(s.turns[t], Updates(s.out, t)) else Updates(s.out, t) == []
  }

  lemma PushStream(turn: Turn, u: nat, written: seq<nat>)
    requires StreamOf(turn, written) && !turn.pc.Finished?
    ensures StreamOf(turn.(queue := turn.queue + [u], pushed := turn.pushed + [u]), written)
  {
    assert written + (InHand(turn.pc) + (turn.queue + [u])) == written + (InHand(turn.pc) + turn.queue) + [u];
  }

  lemma TakeStream(turn: Turn, then_: Option<Stop>, written: seq<nat>)
    requires StreamOf(turn, written) && turn.queue != [] && (turn.pc.Streaming? || turn.pc.Flushing?)
    ensures StreamOf(turn.(pc := Emitting(turn.queue[0], then_), queue := turn.queue[1..]), written)
  {
    assert [turn.queue[0]] + turn.queue[1..] == [] + turn.queue;
  }

  lemma WriteStream(turn: Turn, pc: TurnPc, written: seq<nat>)
    requires StreamOf(turn, written) && turn.pc.Emitting? && (pc.Streaming? || pc.Flushing?)
    ensures StreamOf(turn.(pc := pc), written + [turn.pc.update])
  {
    assert written + [turn.pc.update] + ([] + turn.queue) == written + ([turn.pc.update] + turn.queue);
  }

  lemma DryStream(turn: Turn, stop: Stop, written: seq<nat>)
    requires StreamOf(turn, written) && turn.pc.Flushing? && turn.queue == []
    ensures StreamOf(turn.(pc := Answering(stop)), written)
  {
    assert written + ([] + []) == written;
  }

  lemma TurnStepStream(s: State, t: nat, step: Step)
    requires t in s.turns && TurnStep(s, t, step).Some? && Streams(s, t)
    ensures Streams(TurnStep(s, t, step).value, t)
  {
    var s1, turn, written := TurnStep(s, t, step).value, s.turns[t], Updates(s.out, t);
    if s1.out != s.out { UpdatesAppend(s.out, s1.out[|s.out|], t); }
    match step {
      case Push(_, u) => PushStream(turn, u, written);
      case Receive(_) =>
        if turn.queue != [] { TakeStream(turn, s1.turns[t].pc.then_, written); }
        else { DryStream(turn, turn.pc.stop, written); }
      case Return(_, _) =>
      case Write(_) => if turn.pc.Emitting? { WriteStream(turn, s1.turns[t].pc, written); }
      case Release(_) =>
    }
  }

  lemma OtherStepStream(s: State, t: nat, u: nat, step: Step)
    requires u in s.turns && TurnStep(s, u, step).Some? && Streams(s, t) && t != u
    ensures Streams(TurnStep(s, u, step).value, t)
  {
    var added := OtherWrites(s, u, step);
    if added != [] { UpdatesAppend(s.out, added[0], t); }
  }

  lemma OtherWrites(s: State, u: nat, step: Step) returns (added: seq<Out>)
    requires u in s.turns && TurnStep(s, u, step).Some?
    ensures var s1 := TurnStep(s, u, step).value;
            && u in s1.turns && s1.turns == s.turns[u := s1.turns[u]]
            && |added| <= 1 && s1.out == s.out + added && (|added| == 1 && added[0].Update? ==> added[0].line == u)
            && (added == [] ==> s1.out == s.out) && (added != [] ==> s1.out == s.out + [added[0]])
  {
    var s1 := TurnStep(s, u, step).value;
    added := s1.out[|s.out|..];
    assert s1.out == s.out + added;
  }

  lemma ReaderStream(s: State, t: nat)
    requires Locks(s) && s.next > 0 && ReaderStep(s).Some? && Streams(s, t)
    ensures Streams(ReaderStep(s).value, t)
  {
    var s1 := ReaderStep(s).value;
    if Begins(s) {
      assert s.next - 1 !in s.turns && s1.out == s.out;
    } else {
      ReaderSameTurns(s);
      hide Locks;
      if s.pc.Replying? { UpdatesAppend(s.out, Response(s.next - 1, s.pc.id, s.pc.body), t); }
    }
  }

  lemma StreamsKept(lines: seq<Line>, s: State, step: Step, t: nat)
    requires Locks(s) && Streams(s, t) && Next(lines, s, step).Some?
    ensures Streams(Next(lines, s, step).value, t)
  {
    hide Locks, TurnStep, ReaderStep, Shutdown;
    match step
    case Read => DispatchOnlyParses(s.(next := s.next + 1), lines[s.next]);
    case Proceed => if s.pc.Reading? || s.pc.Over() { ShutdownSameTurns(s); } else { ReaderStream(s, t); }
    case Push(u, _) => if t == u { TurnStepStream(s, t, step); } else { OtherStepStream(s, t, u, step); }
    case Receive(u) => if t == u { TurnStepStream(s, t, step); } else { OtherStepStream(s, t, u, step); }
    case Return(u, _) => if t == u { TurnStepStream(s, t, step); } else { OtherStepStream(s, t, u, step); }
    case Write(u) => if t == u { TurnStepStream(s, t, step); } else { OtherStepStream(s, t, u, step); }
    case Release(u) => if t == u { TurnStepStream(s, t, step); } else { OtherStepStream(s, t, u, step); }
  }

  // ---- order on the wire -----------------------------------------------------------------

  /** The update at `q` belongs to a turn that has not answered yet, and every earlier turn of
      the session has. */
  predicate UpdateInOrder(s: State, q: nat)
    requires q < |s.out| && s.out[q].Update?
  {
    && s.out[q].line in s.turns && s.turns[s.out[q].line].session == s.out[q].session
    && Responses(s.out[..q], s.out[q].line) == 0
    && forall i :: i in s.turns && i < s.out[q].line && s.turns[i].session == s.out[q].session ==>
         Responses(s.out[..q], i) == 1
  }

  predicate InOrder(s: State) {
    forall q: nat :: q < |s.out| && s.out[q].Update? ==> UpdateInOrder(s, q)
  }

  /** Steps that keep the turns' sessions and write nothing. */
  lemma SilentKeepsOrder(s: State, s1: State)
    requires InOrder(s) && s1.turns.Keys == s.turns.Keys
    requires forall t :: t in s.turns ==> s1.turns[t].session == s.turns[t].session
    requires s1.out == s.out || (|s1.out| == |s.out| + 1 && s.out <= s1.out && s1.out[|s.out|].Response?)
    ensures InOrder(s1)
  {
    forall q: nat | q < |s1.out| && s1.out[q].Update? ensures UpdateInOrder(s1, q) {
      assert s1.out[q] == s.out[q] && s1.out[..q] == s.out[..q] && UpdateInOrder(s, q);
    }
  }

  lemma BeginKeepsOrder(s: State)
    requires Locks(s) && InOrder(s) && s.next > 0 && Begins(s)
    ensures InOrder(ReaderStep(s).value)
  {
    var s1 := ReaderStep(s).value;
    forall q: nat | q < |s1.out| && s1.out[q].Update? ensures UpdateInOrder(s1, q) {
      assert UpdateInOrder(s, q);
    }
  }

  lemma UpdateKeepsOrder(lines: seq<Line>, s: State, t: nat)
    requires Locks(s) && InOrder(s) && t in s.turns && s.turns[t].pc.Emitting?
    requires PcFits(lines, s) && forall i: nat :: Balanced(lines, s, i)
    ensures InOrder(TurnStep(s, t, Write(t)).value)
  {
    var s1 := TurnStep(s, t, Write(t)).value;
    forall q: nat | q < |s1.out| && s1.out[q].Update? ensures UpdateInOrder(s1, q) {
      if q < |s.out| {
        assert s1.out[q] == s.out[q] && s1.out[..q] == s.out[..q] && UpdateInOrder(s, q);
      } else {
        assert s1.out[..q] == s.out && Balanced(lines, s, t);
        forall i | i in s.turns && i < t && s.turns[i].session == s.turns[t].session
          ensures Responses(s.out, i) == 1
        {
          assert Balanced(lines, s, i);
        }
      }
    }
  }

  lemma TurnKeepsOrder(s: State, t: nat, step: Step)
    requires InOrder(s) && t in s.turns && TurnStep(s, t, step).Some?
    requires !(step.Write? && s.turns[t].pc.Emitting?)
    ensures InOrder(TurnStep(s, t, step).value)
  {
    hide InOrder;
    SilentKeepsOrder(s, TurnStep(s, t, step).value);
  }

  lemma ReaderKeepsOrder(s: State)
    requires Locks(s) && InOrder(s) && s.next > 0 && ReaderStep(s).Some?
    ensures InOrder(ReaderStep(s).value)
  {
    hide InOrder, Locks;
    if Begins(s) { BeginKeepsOrder(s); } else { SilentKeepsOrder(s, ReaderStep(s).value); }
  }

  lemma ShutdownKeepsOrder(s: State)
    requires InOrder(s) && Shutdown(s).Some?
    ensures InOrder(Shutdown(s).value)
  {
    hide InOrder;
    SilentKeepsOrder(s, Shutdown(s).value);
  }

  lemma OrderKept(lines: seq<Line>, s: State, step: Step)
    requires Locks(s) && InOrder(s) && Next(lines, s, step).Some?
    requires PcFits(lines, s) && forall i: nat :: Balanced(lines, s, i)
    ensures InOrder(Next(lines, s, step).value)
  {
    hide InOrder, Locks, PcFits, Balanced, TurnStep, ReaderStep, Shutdown;
    match step
    case Read =>
      DispatchOnlyParses(s.(next := s.next + 1), lines[s.next]);
      SilentKeepsOrder(s, Next(lines, s, step).value);
    case Proceed => if s.pc.Reading? || s.pc.Over() { ShutdownKeepsOrder(s); } else { ReaderKeepsOrder(s); }
    case Push(t, _) => TurnKeepsOrder(s, t, step);
    case Receive(t) => TurnKeepsOrder(s, t, step);
    case Return(t, _) => TurnKeepsOrder(s, t, step);
    case Write(t) =>
      if s.turns[t].pc.Emitting? { UpdateKeepsOrder(lines, s, t); } else { TurnKeepsOrder(s, t, step); }
    case Release(t) => TurnKeepsOrder(s, t, step);
  }

  // ---- shutdown --------------------------------------------------------------------------

  /** Once the input has ended no turn begins, and each unfinished one has been cancelled. */
  predicate Winding(lines: seq<Line>, s: State) {
    && (s.pc.Over() ==> s.next == |lines|)
    && (s.pc.Draining? || s.pc.Returned? ==>
          forall t :: t in s.turns && !s.turns[t].pc.Finished? ==> s.turns[t].cancelled)
    && (s.pc.Returned? ==> AllFinished(s))
  }

  lemma FireAllCancels(s: State)
    requires Locks(s)
    ensures forall t :: t in s.turns && !s.turns[t].pc.Finished? ==> FireAll(s).turns[t].cancelled
  {
    forall t | t in s.turns && !s.turns[t].pc.Finished? ensures t in s.cancels.Values {
      assert s.cancels[s.turns[t].session] == t;
    }
  }

  lemma WindingKept(lines: seq<Line>, s: State, step: Step)
    requires Locks(s) && Winding(lines, s) && Next(lines, s, step).Some?
    ensures Winding(lines, Next(lines, s, step).value)
  {
    if step.Proceed? && s.pc.Closing? { FireAllCancels(s); }
  }

  // ---- whole runs ------------------------------------------------------------------------

  ghost predicate Inv(lines: seq<Line>, s: State) {
    && Locks(s) && PcFits(lines, s) && Addressed(lines, s.out) && (forall i: nat :: Balanced(lines, s, i))
    && (forall t: nat :: Streams(s, t)) && InOrder(s) && Winding(lines, s)
  }

  lemma StepKeepsInv(lines: seq<Line>, s: State, step: Step)
    requires Inv(lines, s) && Next(lines, s, step).Some?
    ensures Inv(lines, Next(lines, s, step).value)
  {
    var s1 := Next(lines, s, step).value;
    LocksKept(lines, s, step);
    forall i: nat ensures Replies(lines, s1, i) { RepliesKept(lines, s, step, i); }
    assert Replies(lines, s1, 0);
    forall i: nat ensures Balanced(lines, s1, i) { assert Replies(lines, s1, i); }
    forall t: nat ensures Streams(s1, t) { StreamsKept(lines, s, step, t); }
    OrderKept(lines, s, step);
    WindingKept(lines, s, step);
  }

  lemma {:induction false} RunKeepsInv(lines: seq<Line>, s: State, steps: seq<Step>)
    requires Inv(lines, s) && Run(lines, s, steps).Some?
    ensures Inv(lines, Run(lines, s, steps).value)
    decreases |steps|
  {
    if steps != [] {
      StepKeepsInv(lines, s, steps[0]);
      RunKeepsInv(lines, Next(lines, s, steps[0]).value, steps[1..]);
    }
  }

  lemma StartInv(lines: seq<Line>)
    ensures Inv(lines, START)
  {}
}
