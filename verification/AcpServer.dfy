/** The Agent Client Protocol server: one read loop, and one task per prompt turn. A step runs
    one of them from one `await` to the next; clients send anything, delegates do anything. */
module AcpServer {
  import opened Wrappers
  import opened Messages

  /** JSON-RPC ids are opaque; a null id reads as no id at all. */
  type Id = nat

  datatype Method =
    | Initialize(requested: Option<nat>)            // None: unreadable parameters
    | NewSession
    | Prompt(session: Option<string>)               // None: unreadable parameters
    | CancelTurn(session: Option<string>)
    | Unsupported

  /** One non-blank line from the client. */
  datatype Line =
    | NotJson
    | NotRequest(recovered: Option<Id>)
    | Request(id: Option<Id>, m: Method)

  datatype Code = ParseError | InvalidRequest | MethodNotFound | InvalidParams

  datatype Stop = EndTurn | Cancelled | OtherStop

  datatype Body =
    | Initialized(version: nat)
    | SessionCreated(session: string)
    | TurnEnded(stop: Stop)
    | Failed(code: Code)

  /** What the server writes. `line` is the input line a response or update is owed to; it is
      bookkeeping, not sent. */
  datatype Out =
    | Response(line: nat, id: Option<Id>, body: Body)
    | Update(line: nat, session: string, update: nat)

  /** Where a turn's task is suspended. */
  datatype TurnPc =
    | Streaming                                     // in the select
    | Emitting(update: nat, then_: Option<Stop>)    // writing an update; None: then back to the select
    | Flushing(stop: Stop)
    | Answering(stop: Stop)                         // writing the response
    | Releasing                                     // before the cancels lock
    | Finished
  {
    predicate Answered() { Releasing? || Finished? }

    predicate Returned() { !Streaming? && (Emitting? ==> then_.Some?) }
  }

  /** `pushed` is everything ever sent into the sink, `atReturn` how much of it the delegate had
      sent by the time it returned, `stopped` what it returned; all three are bookkeeping. */
  datatype Turn = Turn(id: Id, session: string, pc: TurnPc, queue: seq<nat>, cancelled: bool,
                       pushed: seq<nat>, atReturn: nat, stopped: Option<Stop>)

  /** Where the read loop is suspended. All but Reading, Cancelling and the shutdown are about
      the line just read. */
  datatype Pc =
    | Reading
    | Replying(id: Option<Id>, body: Body)          // writing a response
    | AddingSession(session: string, to: Id)
    | CheckingSession(session: string, to: Id)
    | TakingTurn(session: string, to: Id)
    | Cancelling(session: string)
    | Closing                                       // end of input, before the cancels lock
    | Draining
    | Returned
  {
    /** Owes the line just read a response, or a turn that will give it. */
    predicate Owes() { Replying? || AddingSession? || CheckingSession? || TakingTurn? }

    predicate Over() { Closing? || Draining? || Returned? }
  }

  /** `next` lines have been read. Turns are keyed by their prompt's line. */
  datatype State = State(
    next: nat, pc: Pc, counter: nat, sessions: set<string>, cancels: map<string, nat>,
    turns: map<nat, Turn>, out: seq<Out>)

  datatype Step =
    | Read
    | Proceed                                       // the read loop goes on from where it waits
    | Push(t: nat, update: nat)                     // the delegate, or a clone of its sink, sends
    | Receive(t: nat)
    | Return(t: nat, stop: Stop)
    | Write(t: nat)                                 // the write a turn waits for completes
    | Release(t: nat)

  const START := State(0, Reading, 0, {}, map[], map[], [])

  /** The id a response to this line carries. */
  function IdOf(l: Line): Option<Id> {
    match l
    case NotJson => None
    case NotRequest(recovered) => recovered
    case Request(id, _) => id
  }

  /** The lines that get a response: errors below the method level always; requests proper when
      they have an id and are not a cancel (section 5 of the JSON-RPC 2.0 specification). */
  predicate Answerable(l: Line) {
    l.Request? ==> l.id.Some? && !l.m.CancelTurn?
  }

  function Negotiated(requested: Option<nat>): nat {
    if requested.None? then 1 else if requested.value < 1 then requested.value else 1
  }

  /** The first stretch after reading a line. */
  function Dispatch(s: State, l: Line): State {
    match l
    case NotJson => s.(pc := Replying(None, Failed(ParseError)))
    case NotRequest(recovered) => s.(pc := Replying(recovered, Failed(InvalidRequest)))
    case Request(id, CancelTurn(session)) =>
      if session.Some? then s.(pc := Cancelling(session.value)) else s.(pc := Reading)
    case Request(None, _) => s.(pc := Reading)
    case Request(Some(id), Initialize(requested)) =>
      s.(pc := Replying(Some(id), Initialized(Negotiated(requested))))
    case Request(Some(id), NewSession) =>
      s.(pc := AddingSession("acp-" + Decimal(s.counter), id), counter := s.counter + 1)
    case Request(Some(id), Prompt(session)) =>
      s.(pc := if session.Some? then CheckingSession(session.value, id) else Replying(Some(id), Failed(InvalidParams)))
    case Request(Some(id), Unsupported) => s.(pc := Replying(Some(id), Failed(MethodNotFound)))
  }

  function SetTurn(s: State, t: nat, turn: Turn): State { s.(turns := s.turns[t := turn]) }

  function Fire(s: State, session: string): State {
    if session in s.cancels && s.cancels[session] in s.turns
    then SetTurn(s, s.cancels[session], s.turns[s.cancels[session]].(cancelled := true))
    else s
  }

  /** At the end of input every registered token is fired. */
  function FireAll(s: State): State {
    s.(turns := map t | t in s.turns :: s.turns[t].(cancelled := s.turns[t].cancelled || t in s.cancels.Values))
  }

  /** The read loop goes on with the line it read last. */
  function ReaderStep(s: State): Option<State>
    requires s.next > 0
  {
    var line := s.next - 1;
    match s.pc
    case Replying(id, body) => Some(s.(pc := Reading, out := s.out + [Response(line, id, body)]))
    case AddingSession(session, id) =>
      Some(s.(pc := Replying(Some(id), SessionCreated(session)), sessions := s.sessions + {session}))
    case CheckingSession(session, id) =>
      Some(s.(pc := if session in s.sessions then TakingTurn(session, id)
                    else Replying(Some(id), Failed(InvalidParams))))
    case TakingTurn(session, id) =>
      Some(if session in s.cancels then s.(pc := Replying(Some(id), Failed(InvalidRequest)))
           else SetTurn(s, line, Turn(id, session, Streaming, [], false, [], 0, None))
                .(pc := Reading, cancels := s.cancels[session := line]))
    case Cancelling(session) => Some(Fire(s, session).(pc := Reading))
    case _ => None
  }

  predicate AllFinished(s: State) { forall t :: t in s.turns ==> s.turns[t].pc.Finished? }

  function Shutdown(s: State): Option<State> {
    match s.pc
    case Reading => Some(s.(pc := Closing))
    case Closing => Some(FireAll(s).(pc := Draining))
    case Draining => if AllFinished(s) then Some(s.(pc := Pc.Returned)) else None
    case _ => None
  }

  function TurnStep(s: State, t: nat, step: Step): Option<State>
    requires t in s.turns
  {
    var turn := s.turns[t];
    match (step, turn.pc)
    case (Push(_, u), pc) =>
      if pc.Finished? then None
      else Some(SetTurn(s, t, turn.(queue := turn.queue + [u], pushed := turn.pushed + [u])))
    case (Receive(_), Streaming) =>
      if turn.queue == [] then None
      else Some(SetTurn(s, t, turn.(pc := Emitting(turn.queue[0], None), queue := turn.queue[1..])))
    // The select prefers updates, but a delegate may send and return within one poll.
    case (Return(_, stop), Streaming) =>
      Some(SetTurn(s, t, turn.(pc := Flushing(stop), atReturn := |turn.pushed|, stopped := Some(stop))))
    case (Receive(_), Flushing(stop)) =>
      Some(SetTurn(s, t, if turn.queue == [] then turn.(pc := Answering(stop))
                         else turn.(pc := Emitting(turn.queue[0], Some(stop)), queue := turn.queue[1..])))
    case (Write(_), Emitting(u, then_)) =>
      Some(SetTurn(s, t, turn.(pc := if then_.Some? then Flushing(then_.value) else Streaming))
           .(out := s.out + [Update(t, turn.session, u)]))
    case (Write(_), Answering(stop)) =>
      Some(SetTurn(s, t, turn.(pc := Releasing)).(out := s.out + [Response(t, Some(turn.id), TurnEnded(stop))]))
    case (Release(_), Releasing) =>
      Some(SetTurn(s, t, turn.(pc := Finished)).(cancels := s.cancels - {turn.session}))
    case _ => None
  }

  function Next(lines: seq<Line>, s: State, step: Step): Option<State> {
    match step
    case Read =>
      if s.pc.Reading? && s.next < |lines| then Some(Dispatch(s.(next := s.next + 1), lines[s.next])) else None
    case Proceed =>
      if s.pc.Reading? || s.pc.Over() then (if s.next == |lines| then Shutdown(s) else None)
      else if s.next > 0 then ReaderStep(s)
      else None
    case _ => if step.t in s.turns then TurnStep(s, step.t, step) else None
  }

  function Run(lines: seq<Line>, s: State, steps: seq<Step>): Option<State>
    decreases |steps|
  {
    if steps == [] then Some(s)
    else match Next(lines, s, steps[0])
      case None => None
      case Some(s1) => Run(lines, s1, steps[1..])
  }
}
