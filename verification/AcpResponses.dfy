/** What each response of the Agent Client Protocol server says. */
module AcpResponses {
  import opened Wrappers
  import opened AcpServer
  import AcpSafety
  import Messages
  import AcpTheorems

  // ---- what a client can expect ----------------------------------------------------------

  /** How many sessions these lines ask for. */
  function NewSessions(lines: seq<Line>): nat {
    if lines == [] then 0
    else
      var last := lines[|lines| - 1];
      NewSessions(lines[..|lines| - 1]) + if last.Request? && last.id.Some? && last.m.NewSession? then 1 else 0
  }

  function Names(n: nat): set<string> { set k | 0 <= k < n :: AcpTheorems.SessionName(k) }

  /** The sessions that the lines before line `i` have created. */
  function KnownAt(lines: seq<Line>, i: nat): set<string>
    requires i <= |lines|
  {
    Names(NewSessions(lines[..i]))
  }

  lemma NewSessionsStep(lines: seq<Line>, i: nat)
    requires i < |lines|
    ensures NewSessions(lines[..i + 1])
            == NewSessions(lines[..i])
               + if lines[i].Request? && lines[i].id.Some? && lines[i].m.NewSession? then 1 else 0
  {
    assert lines[..i + 1][..i] == lines[..i];
  }

  lemma NamesStep(n: nat)
    ensures Names(n + 1) == Names(n) + {AcpTheorems.SessionName(n)}
  {}

  /** What may answer line `i`. A prompt for a session that an earlier line created is answered by its
      turn or refused; any other has invalid parameters. */
  predicate Fits(lines: seq<Line>, i: nat, body: Body)
    requires i < |lines|
  {
    match lines[i]
    case NotJson => body == Failed(ParseError)
    case NotRequest(_) => body == Failed(InvalidRequest)
    case Request(_, Initialize(requested)) =>
      && body.Initialized? && body.version <= 1
      && (requested.Some? ==> body.version <= requested.value)
      && (body.version == 1 || Some(body.version) == requested)
    case Request(_, NewSession) => body == SessionCreated(AcpTheorems.SessionName(NewSessions(lines[..i])))
    case Request(_, Prompt(None)) => body == Failed(InvalidParams)
    case Request(_, Prompt(Some(x))) =>
      if x in KnownAt(lines, i) then body.TurnEnded? || body == Failed(InvalidRequest)
      else body == Failed(InvalidParams)
    case Request(_, Unsupported) => body == Failed(MethodNotFound)
    case Request(_, CancelTurn(_)) => false
  }

  predicate IsPrompt(l: Line, session: string) { l.Request? && l.m == Prompt(Some(session)) }

  // ---- what the server keeps -------------------------------------------------------------

  /** Exactly the sessions asked for so far exist, the one being added apart. */
  predicate Registered(lines: seq<Line>, s: State) {
    && s.next <= |lines| && s.counter == NewSessions(lines[..s.next])
    && (s.pc.AddingSession? ==> s.counter > 0)
    && s.sessions == Names(if s.pc.AddingSession? then s.counter - 1 else s.counter)
  }

  /** The read loop is about to say something that fits. */
  predicate PcSays(lines: seq<Line>, s: State) {
    && Registered(lines, s) && (s.pc.Owes() ==> s.next > 0)
    && match s.pc
       case Replying(_, body) => Fits(lines, s.next - 1, body) && !body.TurnEnded?
       case AddingSession(x, _) =>
         && lines[s.next - 1].Request? && lines[s.next - 1].id.Some? && lines[s.next - 1].m.NewSession?
         && x == AcpTheorems.SessionName(s.counter - 1)
       case CheckingSession(x, _) => IsPrompt(lines[s.next - 1], x)
       case TakingTurn(x, _) => IsPrompt(lines[s.next - 1], x) && x in KnownAt(lines, s.next - 1)
       case _ => true
  }

  /** A turn will answer with what its delegate returned. */
  predicate TurnSays(turn: Turn) {
    match turn.pc
    case Streaming => turn.stopped.None?
    case Emitting(_, then_) => turn.stopped == then_
    case Flushing(stop) => turn.stopped == Some(stop)
    case Answering(stop) => turn.stopped == Some(stop)
    case Releasing => turn.stopped.Some?
    case Finished => turn.stopped.Some?
  }

  predicate TurnsSay(lines: seq<Line>, s: State) {
    forall t :: t in s.turns ==>
      && t < s.next && t < |lines| && IsPrompt(lines[t], s.turns[t].session)
      && s.turns[t].session in KnownAt(lines, t) && TurnSays(s.turns[t])
  }

  predicate Said(lines: seq<Line>, s: State, o: Out) {
    o.Response? ==>
      && o.line < s.next <= |lines| && Fits(lines, o.line, o.body)
      && (o.body.TurnEnded? ==> o.line in s.turns && s.turns[o.line].stopped == Some(o.body.stop))
      && (!o.body.TurnEnded? ==> o.line !in s.turns && (o.line + 1 == s.next ==> !s.pc.Owes()))
  }

  predicate OutSays(lines: seq<Line>, s: State) {
    forall q :: 0 <= q < |s.out| ==> Said(lines, s, s.out[q])
  }

  predicate Says(lines: seq<Line>, s: State) {
    PcSays(lines, s) && TurnsSay(lines, s) && OutSays(lines, s)
  }

  /** No turn is forgotten, nor what its delegate returned. */
  predicate KeepsStops(s: State, s1: State) {
    forall t :: t in s.turns && s.turns[t].stopped.Some? ==>
      t in s1.turns && s1.turns[t].stopped == s.turns[t].stopped
  }

  /** A turn begins only with the line for which the read loop owes an answer. */
  predicate Advances(s: State, s1: State) {
    && s.next <= s1.next && (s1.next == s.next && s1.pc.Owes() ==> s.pc.Owes())
    && forall t :: t in s1.turns ==> t in s.turns || (t + 1 == s.next && s.pc.Owes())
  }

  /** A step that forgets no turn's stop and adds at most one fitting response. */
  lemma OutKept(lines: seq<Line>, s: State, s1: State, added: seq<Out>)
    requires OutSays(lines, s) && s1.out == s.out + added && KeepsStops(s, s1) && Advances(s, s1)
    requires s1.next <= |lines|
    requires forall o :: o in added ==> Said(lines, s1, o)
    ensures OutSays(lines, s1)
  {
    forall q | 0 <= q < |s1.out| ensures Said(lines, s1, s1.out[q]) {
      if q < |s.out| { assert Said(lines, s, s.out[q]); } else { assert s1.out[q] in added; }
    }
  }

  lemma ReadPcSays(lines: seq<Line>, s: State)
    requires PcSays(lines, s) && s.pc.Reading? && s.next < |lines|
    ensures PcSays(lines, Dispatch(s.(next := s.next + 1), lines[s.next]))
  {
    hide Messages.Decimal;
    NewSessionsStep(lines, s.next);
  }

  lemma ReadSays(lines: seq<Line>, s: State)
    requires Says(lines, s) && s.pc.Reading? && s.next < |lines|
    ensures Says(lines, Dispatch(s.(next := s.next + 1), lines[s.next]))
  {
    ReadPcSays(lines, s);
    hide PcSays, Dispatch;
    var s1 := Dispatch(s.(next := s.next + 1), lines[s.next]);
    AcpSafety.DispatchOnlyParses(s.(next := s.next + 1), lines[s.next]);
    assert s1.out == s.out + [];
    OutKept(lines, s, s1, []);
  }

  lemma ReaderPcSays(lines: seq<Line>, s: State)
    requires PcSays(lines, s) && s.next > 0 && ReaderStep(s).Some?
    ensures PcSays(lines, ReaderStep(s).value)
  {
    if s.pc.AddingSession? {
      SessionPcSays(lines, s);
    } else {
      NewSessionsStep(lines, s.next - 1);
      hide NewSessions, AcpTheorems.SessionName, Names;
    }
  }

  lemma SessionPcSays(lines: seq<Line>, s: State)
    requires PcSays(lines, s) && s.next > 0 && s.pc.AddingSession? && ReaderStep(s).Some?
    ensures PcSays(lines, ReaderStep(s).value)
  {
    NewSessionsStep(lines, s.next - 1);
    NamesStep(s.counter - 1);
    hide NewSessions, AcpTheorems.SessionName, Names;
  }

  lemma ReaderAdvances(s: State)
    requires s.next > 0 && ReaderStep(s).Some?
    ensures Advances(s, ReaderStep(s).value) && ReaderStep(s).value.next == s.next
  {}

  lemma ReaderWrites(lines: seq<Line>, s: State) returns (added: seq<Out>)
    requires PcSays(lines, s) && AcpSafety.Locks(s) && s.next > 0 && ReaderStep(s).Some?
    ensures var s1 := ReaderStep(s).value;
            s1.out == s.out + added && forall o :: o in added ==> Said(lines, s1, o)
  {
    hide Fits;
    var s1 := ReaderStep(s).value;
    added := s1.out[|s.out|..];
    assert s1.out == s.out + added;
  }

  lemma SameTurnsSay(lines: seq<Line>, s: State, s1: State)
    requires TurnsSay(lines, s) && AcpSafety.SameTurns(s, s1) && s1.next == s.next
    ensures TurnsSay(lines, s1) && KeepsStops(s, s1)
  {}

  lemma NewTurnSays(lines: seq<Line>, s: State, s1: State, turn: Turn)
    requires TurnsSay(lines, s) && 0 < s.next <= |lines| && s1.next == s.next && s.next - 1 !in s.turns
    requires s1.turns == s.turns[s.next - 1 := turn] && IsPrompt(lines[s.next - 1], turn.session) && TurnSays(turn)
    requires turn.session in KnownAt(lines, s.next - 1)
    ensures TurnsSay(lines, s1) && KeepsStops(s, s1)
  {}

  lemma ReaderKeepsStops(lines: seq<Line>, s: State)
    requires PcSays(lines, s) && TurnsSay(lines, s) && AcpSafety.Locks(s) && s.next > 0 && ReaderStep(s).Some?
    ensures TurnsSay(lines, ReaderStep(s).value) && KeepsStops(s, ReaderStep(s).value)
  {
    var s1 := ReaderStep(s).value;
    if AcpSafety.Begins(s) {
      assert s.next - 1 !in s.turns;
      hide TurnsSay, KeepsStops, AcpSafety.Locks;
      NewTurnSays(lines, s, s1, s1.turns[s.next - 1]);
    } else {
      hide TurnsSay, KeepsStops, AcpSafety.Locks, ReaderStep;
      AcpSafety.ReaderSameTurns(s);
      SameTurnsSay(lines, s, s1);
    }
  }

  lemma ReaderSays(lines: seq<Line>, s: State)
    requires Says(lines, s) && AcpSafety.Locks(s) && s.next > 0 && ReaderStep(s).Some?
    ensures Says(lines, ReaderStep(s).value)
  {
    assert s.next <= |lines|;
    hide PcSays, TurnsSay, OutSays, KeepsStops, Advances, ReaderStep, AcpSafety.Locks;
    var added := ReaderWrites(lines, s);
    ReaderPcSays(lines, s);
    ReaderAdvances(s);
    ReaderKeepsStops(lines, s);
    OutKept(lines, s, ReaderStep(s).value, added);
  }

  lemma ShutdownSays(lines: seq<Line>, s: State)
    requires Says(lines, s) && Shutdown(s).Some?
    ensures Says(lines, Shutdown(s).value)
  {
    var s1 := Shutdown(s).value;
    AcpSafety.ShutdownSameTurns(s);
    SameTurnsSay(lines, s, s1);
    hide TurnsSay, OutSays, KeepsStops, KnownAt, FireAll;
    assert s1.out == s.out + [];
    OutKept(lines, s, s1, []);
  }

  lemma TurnGoesOnSaying(s: State, t: nat, step: Step)
    requires t in s.turns && TurnStep(s, t, step).Some? && TurnSays(s.turns[t])
    ensures var s1 := TurnStep(s, t, step).value;
            && t in s1.turns && s1.turns == s.turns[t := s1.turns[t]] && TurnSays(s1.turns[t])
            && s1.turns[t].session == s.turns[t].session && s1.pc == s.pc && s1.next == s.next
            && (s.turns[t].stopped.Some? ==> s1.turns[t].stopped == s.turns[t].stopped)
  {}

  lemma TurnWritesFit(lines: seq<Line>, s: State, t: nat, step: Step) returns (added: seq<Out>)
    requires Says(lines, s) && t in s.turns && TurnStep(s, t, step).Some?
    ensures var s1 := TurnStep(s, t, step).value;
            s1.out == s.out + added && forall o :: o in added ==> Said(lines, s1, o)
  {
    var s1 := TurnStep(s, t, step).value;
    added := s1.out[|s.out|..];
    assert s1.out == s.out + added;
  }

  lemma TurnStepKeeps(lines: seq<Line>, s: State, t: nat, step: Step)
    requires PcSays(lines, s) && TurnsSay(lines, s) && t in s.turns && TurnStep(s, t, step).Some?
    ensures var s1 := TurnStep(s, t, step).value;
            PcSays(lines, s1) && TurnsSay(lines, s1) && KeepsStops(s, s1) && Advances(s, s1) && s1.next <= |lines|
  {
    TurnGoesOnSaying(s, t, step);
    TurnKeepsSessions(s, t, step);
    hide TurnStep, KnownAt, Names, TurnSays, Fits;
  }

  lemma TurnKeepsSessions(s: State, t: nat, step: Step)
    requires t in s.turns && TurnStep(s, t, step).Some?
    ensures var s1 := TurnStep(s, t, step).value; s1.sessions == s.sessions && s1.counter == s.counter
  {}

  lemma TurnStepSays(lines: seq<Line>, s: State, t: nat, step: Step)
    requires Says(lines, s) && t in s.turns && TurnStep(s, t, step).Some?
    ensures Says(lines, TurnStep(s, t, step).value)
  {
    hide PcSays, TurnsSay, OutSays, KeepsStops, Advances, TurnStep;
    TurnStepKeeps(lines, s, t, step);
    var added := TurnWritesFit(lines, s, t, step);
    OutKept(lines, s, TurnStep(s, t, step).value, added);
  }

  lemma {:induction false} RunSays(lines: seq<Line>, s: State, steps: seq<Step>)
    requires Says(lines, s) && AcpSafety.Inv(lines, s) && Run(lines, s, steps).Some?
    ensures Says(lines, Run(lines, s, steps).value)
    decreases |steps|
  {
    if steps != [] {
      AcpSafety.StepKeepsInv(lines, s, steps[0]);
      StepSays(lines, s, steps[0]);
      RunSays(lines, Next(lines, s, steps[0]).value, steps[1..]);
    }
  }

  lemma StepSays(lines: seq<Line>, s: State, step: Step)
    requires Says(lines, s) && AcpSafety.Locks(s) && Next(lines, s, step).Some?
    ensures Says(lines, Next(lines, s, step).value)
  {
    if step.Read? { ReadSays(lines, s); }
    else if step.Proceed? {
      if s.pc.Reading? || s.pc.Over() { ShutdownSays(lines, s); } else { ReaderSays(lines, s); }
    }
    else { TurnStepSays(lines, s, step.t, step); }
  }

  lemma {:induction false} NewSessionsGrow(lines: seq<Line>, i: nat, j: nat)
    requires i <= j <= |lines|
    ensures NewSessions(lines[..i]) <= NewSessions(lines[..j])
    decreases j
  {
    if i < j {
      NewSessionsGrow(lines, i, j - 1);
      NewSessionsStep(lines, j - 1);
    }
  }

  /** In every run exactly the sessions that the lines read so far ask for have been created, the one
      being added apart; and each turn belongs to one that an earlier line created. */
  lemma TurnsAreOfKnownSessions(lines: seq<Line>, steps: seq<Step>, s: State, t: nat)
    requires AcpTheorems.Reaches(lines, steps, s)
    ensures Registered(lines, s)
    ensures t in s.turns ==>
              && t < |lines| && IsPrompt(lines[t], s.turns[t].session)
              && s.turns[t].session in KnownAt(lines, t) && s.turns[t].session in s.sessions
  {
    AcpSafety.StartInv(lines);
    RunSays(lines, START, steps);
    if t in s.turns { KnownIsRegistered(lines, s, t); }
  }

  lemma KnownIsRegistered(lines: seq<Line>, s: State, t: nat)
    requires PcSays(lines, s) && t < s.next
    ensures KnownAt(lines, t) <= s.sessions
  {
    hide AcpTheorems.SessionName;
    NewSessionsGrow(lines, t, s.next);
    if s.pc.AddingSession? {
      NewSessionsGrow(lines, t, s.next - 1);
      NewSessionsStep(lines, s.next - 1);
    }
  }

  /** In every run each response fits its line: the error code of its fault, the highest version
      both sides speak, the next session's name. A prompt for a session that no earlier line
      created has invalid parameters; for any other it is answered with the stop reason its own
      delegate returned, if its turn has begun, and else refused. */
  lemma ResponsesFit(lines: seq<Line>, steps: seq<Step>, s: State, q: nat)
    requires AcpTheorems.Reaches(lines, steps, s) && q < |s.out| && s.out[q].Response?
    ensures var o := s.out[q];
            && o.line < |lines| && Fits(lines, o.line, o.body)
            && (if o.body.TurnEnded? then o.line in s.turns && s.turns[o.line].stopped == Some(o.body.stop)
                else o.line !in s.turns)
  {
    AcpSafety.StartInv(lines);
    RunSays(lines, START, steps);
    assert Said(lines, s, s.out[q]);
  }
}
