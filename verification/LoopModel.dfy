/** The /loop controller as a step relation, for one loop id: the stored row, the driver-slot
    map entry, every driver task and every API call in flight. A step runs one task from one
    `await` to the next, so a run is an arbitrary interleaving. Store writes may fail, the
    clock moves forward at will, and the process may crash and replay its rows at boot. */
module LoopModel {
  import opened Wrappers
  import opened LoopTiming

  datatype Status = Active | Paused | BudgetExhausted | Done | Cancelled | Failed {
    predicate Terminal() { !Active? && !Paused? }
  }

  /** The columns of a row that no step changes. */
  datatype Config = Config(maxTicks: nat, expiresAt: int, maxTokens: nat, pacing: Pacing)

  /** The columns that do. */
  datatype Row = Row(status: Status, ticks: nat, failures: nat, nextAt: int)

  /** A task's own copy of the changing columns. */
  datatype Local = Local(ticks: nat, failures: nat, nextAt: int)

  /** Where a driver task is suspended. */
  datatype Pc =
    | Top                        // about to check its budgets
    | Metering                   // summing the session's tokens
    | Sleeping                   // waiting for the next tick or a cancel
    | Starting                   // inside run_turn
    | Running                    // its turn is running
    | Recording                  // record_tick, then round again
    | Persisting(pause: bool)    // record_tick, then pause or close as done
    | Pausing                    // store.pause
    | Closing(to: Status)        // store.terminalise
    | Auditing                   // appending the terminal audit entry
    | Leaving(paused: bool)      // past the loop, slot still held
    | Gone                       // slot dropped
  {
    predicate Working() { !Auditing? && !Leaving? && !Gone? }
    predicate MayFire() { Top? || Metering? || Sleeping? || Starting? }
  }

  datatype Driver = Driver(local: Local, cancelled: bool, pc: Pc)

  /** Where an API call is suspended. */
  datatype Op =
    | CancelRead                             // has read the row
    | CancelMoved                            // moved it; has not signalled the driver
    | CancelSignalled                        // has; not audited yet
    | ResumeRead(snapshot: Local)            // has read a paused row
    | ArmPending(local: Local)               // wrote (or replayed) an active row; not armed yet
  {
    predicate OwesAudit() { CancelMoved? || CancelSignalled? }
  }

  /** The boot replay of this row: it is awaited before any API call is served. */
  datatype Boot = Serving | Listing | Expiring | AuditingExpiry

  datatype Actor = Nobody | ByOp(o: nat) | ByDriver(d: nat) | ByReplay

  /** Bookkeeping of the past that no step of the program reads.
      `owner` is the one task entitled to fire ticks; `lost` sums, over the resumes that took
      effect, the ticks stored minus the ticks the resuming call had read, and `givenBack` the
      positive ones of these; `starts` are the times at which a tick was attempted, `fired`
      counts the attempts that used a tick and `idle` those that found no session free; `streak`
      counts failures since the last success, pause or resume; `closer` made the row terminal;
      `lostCounts` counts the failed writes of a tick count by a driver about to pause or close.
      `skippedArm` (an arm on the taken slot was dropped) and `storeError` speak of the time
      since the latest boot. */
  datatype History = History(
    owner: Actor, fired: nat, idle: nat, lost: int, stale: bool, streak: nat, starts: seq<int>,
    closer: Actor, audits: nat, skippedArm: bool, storeError: bool, givenBack: nat, lostCounts: nat, crashes: nat)
  {
    const crashed := crashes > 0
  }

  datatype State = State(
    row: Option<Row>, slot: Option<nat>, drivers: map<nat, Driver>, ops: map<nat, Op>,
    now: int, boot: Boot, hist: History)
  {
    predicate Live() { row.Some? && !row.value.status.Terminal() }
    predicate Terminal() { row.Some? && row.value.status.Terminal() }
    predicate Is(st: Status) { row.Some? && row.value.status == st }
  }

  const NO_HISTORY := History(Nobody, 0, 0, 0, false, 0, [], Nobody, 0, false, false, 0, 0, 0)

  function Init(now: int): State {
    State(None, None, map[], map[], now, Serving, NO_HISTORY)
  }

  datatype StartResult = TurnInFlight | SessionGone | StartFailed | Launched

  datatype Intent = NoIntent(delay: Option<Request>) | LoopDone | LoopPause

  datatype RunResult = Completed(intent: Intent) | NotCompleted

  datatype Move =
    | Gate
    | Meter(spent: Option<nat>)   // None: the usage query failed
    | SeeCancel
    | Wake
    | RunTurn(start: StartResult)
    | Finish(result: RunResult)
    | Write(ok: bool)             // the store write the driver is suspended on
    | Audit
    | Drop

  datatype Step =
    | Create(o: nat)
    | CancelGet(o: nat)
    | ResumeGet(o: nat)
    | Proceed(o: nat, ok: bool, d: nat)  // a call goes on: `ok` for its write, `d` for a new driver
    | Drive(d: nat, move: Move)
    | Clock(now: int)
    | Crash
    | Replay(o: nat, ok: bool)
    | ReplayClose(ok: bool)
    | ReplayAudit

  function LocalOf(r: Row): Local { Local(r.ticks, r.failures, r.nextAt) }

  // ---- the store's guarded writes --------------------------------------------------------

  /** `terminalise`: moves only live rows. */
  function Terminalised(s: State, to: Status, actor: Actor): State
    requires s.Live()
  {
    s.(row := Some(s.row.value.(status := to)), hist := s.hist.(closer := actor))
  }

  /** `record_tick`: touches only active rows. */
  function Recorded(s: State, l: Local): State {
    if s.Is(Active)
    then s.(row := Some(Row(Active, l.ticks, l.failures, l.nextAt)))
    else s
  }

  // ---- the API calls ---------------------------------------------------------------------

  function WithOp(s: State, o: nat, op: Op): State { s.(ops := s.ops[o := op]) }

  function EndOp(s: State, o: nat): State { s.(ops := s.ops - {o}) }

  function StoreError(s: State): State { s.(hist := s.hist.(storeError := true)) }

  function CountLost(s: State): State { s.(hist := s.hist.(lostCounts := s.hist.lostCounts + 1)) }

  function AuditWritten(s: State): State { s.(hist := s.hist.(audits := s.hist.audits + 1)) }

  function Own(s: State, a: Actor): State { s.(hist := s.hist.(owner := a)) }

  /** `resume`: moves only paused rows; resets the failure count. */
  function Resumed(s: State, o: nat, snap: Local): State
    requires s.Is(Paused)
  {
    var r := s.row.value;
    var l := snap.(failures := 0);
    WithOp(s, o, ArmPending(l)).(
      row := Some(Row(Active, r.ticks, 0, l.nextAt)),
      hist := s.hist.(owner := ByOp(o), streak := 0,
                      lost := s.hist.lost + r.ticks - snap.ticks,
                      givenBack := s.hist.givenBack + if snap.ticks < r.ticks then r.ticks - snap.ticks else 0,
                      stale := s.hist.stale || r.ticks != snap.ticks))
  }

  /** `arm`: spawns driver `d`, unless the slot is taken. */
  function Armed(s: State, o: nat, l: Local, d: nat): State {
    if s.slot.Some? then
      EndOp(Own(s, Nobody), o).(hist := s.hist.(owner := Nobody, skippedArm := true))
    else
      EndOp(Own(s, ByDriver(d)), o).(
        slot := Some(d), drivers := s.drivers[d := Driver(l, false, Top)])
  }

  function OpStep(s: State, o: nat, ok: bool, d: nat): Option<State>
    requires o in s.ops
  {
    match s.ops[o]
    case CancelRead =>
      Some(if ok && s.Live()
           then WithOp(Terminalised(s, Cancelled, ByOp(o)), o, CancelMoved)
           else EndOp(s, o))
    case CancelMoved => Some(WithOp(Signalled(s), o, CancelSignalled))
    case CancelSignalled => Some(AuditWritten(EndOp(s, o)))
    case ResumeRead(snap) => Some(if ok && s.Is(Paused) then Resumed(s, o, snap) else EndOp(s, o))
    case ArmPending(l) => if d in s.drivers then None else Some(Armed(s, o, l, d))
  }

  /** `cancel` takes the slot and fires the token it finds there. */
  function Signalled(s: State): State {
    match s.slot
    case None => s
    case Some(d) =>
      s.(slot := None,
         drivers := if d in s.drivers then s.drivers[d := s.drivers[d].(cancelled := true)]
                    else s.drivers)
  }

  // ---- the driver ------------------------------------------------------------------------

  function Goto(s: State, d: nat, drv: Driver, pc: Pc): State {
    s.(drivers := s.drivers[d := drv.(pc := pc)])
  }

  /** Breaks out of the driver's loop. */
  function Leave(s: State, d: nat, drv: Driver, paused: bool): State {
    Own(Goto(s, d, drv, Leaving(paused)), Nobody)
  }

  /** After a tick that keeps the loop going: the failure breaker, or the next tick time. */
  function SettleAt(s: State, d: nat, drv: Driver, l: Local, nextAt: int): State {
    if l.failures >= MAX_CONSECUTIVE_FAILURES
    then Goto(s, d, drv.(local := l), Closing(Failed))
    else Goto(s, d, drv.(local := l.(nextAt := nextAt)), Recording)
  }

  function Settle(c: Config, s: State, d: nat, drv: Driver, l: Local, requested: Option<Request>): State {
    SettleAt(s, d, drv, l, s.now + NextTickDelay(c.pacing, l.failures, requested))
  }

  function Fired(s: State): State { s.(hist := s.hist.(fired := s.hist.fired + 1)) }

  function Idle(s: State): State { s.(hist := s.hist.(idle := s.hist.idle + 1)) }

  function Streak(s: State, n: nat): State { s.(hist := s.hist.(streak := n)) }

  function TickFailed(l: Local): Local { Local(l.ticks + 1, l.failures + 1, l.nextAt) }

  function TickPassed(l: Local): Local { Local(l.ticks + 1, 0, l.nextAt) }

  function Writes(s: State, d: nat, drv: Driver, ok: bool): Option<State> {
    match drv.pc
    case Recording =>
      Some(if !ok then StoreError(Leave(s, d, drv, false))
           else if s.Is(Active) then Goto(Recorded(s, drv.local), d, drv, Top)
           else Leave(s, d, drv, false))
    case Persisting(pause) =>
      var next := if pause then Pausing else Closing(Done);
      Some(if ok then Goto(Recorded(s, drv.local), d, drv, next)
           else CountLost(StoreError(Goto(s, d, drv, next))))
    case Pausing =>
      Some(if !ok then StoreError(Leave(s, d, drv, false))
           else if s.Is(Active)
           then Leave(s.(row := Some(s.row.value.(status := Paused))), d, drv, true)
           else Leave(s, d, drv, false))
    case Closing(to) =>
      Some(if !ok then StoreError(Leave(s, d, drv, false))
           else if s.Live()
           then Own(Goto(Terminalised(s, to, ByDriver(d)), d, drv, Auditing), Nobody)
           else Leave(s, d, drv, false))
    case _ => None
  }

  function DriverStep(c: Config, s: State, d: nat, move: Move): Option<State>
    requires d in s.drivers
  {
    var drv := s.drivers[d];
    var l := drv.local;
    match (move, drv.pc)
    case (Gate, Top) =>
      Some(if l.ticks >= c.maxTicks || s.now >= c.expiresAt
           then Goto(s, d, drv, Closing(BudgetExhausted))
           else Goto(s, d, drv, if c.maxTokens > 0 then Metering else Sleeping))
    case (Meter(spent), Metering) =>
      Some(Goto(s, d, drv, if spent.Some? && spent.value >= c.maxTokens
                           then Closing(BudgetExhausted) else Sleeping))
    case (SeeCancel, Sleeping) =>
      if drv.cancelled then Some(Leave(s, d, drv, false)) else None
    case (Wake, Sleeping) =>
      if s.now < l.nextAt then None
      else if s.now >= c.expiresAt then Some(Goto(s, d, drv, Closing(BudgetExhausted)))
      else Some(Goto(s, d, drv, Starting).(hist := s.hist.(starts := s.hist.starts + [s.now])))
    case (RunTurn(r), Starting) =>
      Some(match r
           case TurnInFlight => Settle(c, Idle(s), d, drv, l, None)
           case SessionGone => Goto(Idle(s), d, drv, Closing(Cancelled))
           case StartFailed =>
             Settle(c, Streak(Fired(s), s.hist.streak + 1), d, drv, TickFailed(l), None)
           case Launched => Goto(Fired(s), d, drv, Running))
    case (SeeCancel, Running) =>
      if drv.cancelled then Some(Leave(s, d, drv, false)) else None
    case (Finish(r), Running) =>
      Some(match r
           case NotCompleted => Settle(c, Streak(s, s.hist.streak + 1), d, drv, TickFailed(l), None)
           case Completed(NoIntent(delay)) => Settle(c, Streak(s, 0), d, drv, TickPassed(l), delay)
           case Completed(LoopDone) => Goto(Streak(s, 0), d, drv.(local := TickPassed(l)), Persisting(false))
           case Completed(LoopPause) => Goto(Streak(s, 0), d, drv.(local := TickPassed(l)), Persisting(true)))
    case (Write(ok), _) => Writes(s, d, drv, ok)
    case (Audit, Auditing) =>
      Some(AuditWritten(Goto(s, d, drv, Leaving(false))))
    case (Drop, Leaving(_)) => Some(Goto(s, d, drv, Gone).(slot := None))
    case _ => None
  }

  // ---- all steps -------------------------------------------------------------------------

  /** The state after `step`, or None when the step is not enabled. */
  function Next(c: Config, s: State, step: Step): Option<State> {
    match step
    case Create(o) =>
      if s.row.Some? || !s.boot.Serving? then None
      else
        var l := Local(0, 0, s.now + c.pacing.interval);
        Some(Own(WithOp(s.(row := Some(Row(Active, 0, 0, l.nextAt))), o, ArmPending(l)), ByOp(o)))
    case CancelGet(o) =>
      if o in s.ops || s.row.None? || !s.boot.Serving? then None else Some(WithOp(s, o, CancelRead))
    case ResumeGet(o) =>
      if o in s.ops || !s.Is(Paused) || !s.boot.Serving? then None
      else Some(WithOp(s, o, ResumeRead(
                  LocalOf(s.row.value).(nextAt := s.now + c.pacing.interval))))
    case Proceed(o, ok, d) => if o in s.ops then OpStep(s, o, ok, d) else None
    case Drive(d, move) => if d in s.drivers then DriverStep(c, s, d, move) else None
    case Clock(now) => if now < s.now then None else Some(s.(now := now))
    case Crash =>
      Some(State(s.row, None, map[], map[], s.now, Listing,
                 s.hist.(owner := Nobody, crashes := s.hist.crashes + 1, skippedArm := false, storeError := false)))
    case Replay(o, ok) =>
      if !s.boot.Listing? then None
      else
        var s1 := s.(boot := Serving);
        Some(if !ok then StoreError(s1)
             else if !s.Is(Active) then s1
             else if c.expiresAt <= s.now then s.(boot := Expiring)
             else Own(WithOp(s1, o, ArmPending(LocalOf(s.row.value))), ByOp(o)))
    case ReplayClose(ok) =>
      if !s.boot.Expiring? then None
      else Some(if !ok then StoreError(s.(boot := Serving))
                else if s.Live() then Terminalised(s, BudgetExhausted, ByReplay).(boot := AuditingExpiry)
                else s.(boot := Serving))
    case ReplayAudit =>
      if !s.boot.AuditingExpiry? then None
      else Some(AuditWritten(s.(boot := Serving)))
  }

  /** The state after all of `steps`, or None when one of them is not enabled. */
  function Run(c: Config, s: State, steps: seq<Step>): Option<State>
    decreases |steps|
  {
    if steps == [] then Some(s)
    else match Next(c, s, steps[0])
      case None => None
      case Some(s1) => Run(c, s1, steps[1..])
  }
}
