/** What every reachable state of the /loop controller keeps, and what follows over whole runs. */
module LoopSafety {
  import opened Wrappers
  import opened LoopTiming
  import opened LoopModel

  // ---- the invariant, one concern at a time ----------------------------------------------

  /** A loop that does not exist yet has no tasks and no past. */
  predicate Unborn(s: State) {
    s.row.None? ==>
      && s.ops == map[] && s.drivers == map[] && s.slot.None?
      && s.hist.owner == Nobody && s.hist.closer == Nobody && s.hist.audits == 0
      && !s.boot.AuditingExpiry? && !s.boot.Expiring?
      && s.hist.fired == 0 && s.hist.lost == 0 && s.hist.streak == 0 && !s.hist.stale
  }

  /** Between a crash and its boot replay nothing runs. */
  predicate Quiet(s: State) {
    !s.boot.Serving? ==>
      && s.hist.crashed && s.ops == map[] && s.drivers == map[] && s.slot.None?
      && s.hist.owner == Nobody && !s.hist.skippedArm && !s.hist.storeError
  }

  /** Only the owner may still fire ticks: a driver in its loop, or a call about to arm one. */
  predicate Ownership(s: State) {
    && s.hist.owner != ByReplay
    && (forall o :: o in s.ops && s.ops[o].ArmPending? ==> s.hist.owner == ByOp(o))
    && (forall d :: d in s.drivers && s.drivers[d].pc.Working() ==> s.hist.owner == ByDriver(d))
    && (s.hist.owner.ByOp? ==> s.hist.owner.o in s.ops && s.ops[s.hist.owner.o].ArmPending?)
    && (s.hist.owner.ByDriver? ==>
          s.hist.owner.d in s.drivers && s.drivers[s.hist.owner.d].pc.Working())
    && (s.Is(Paused) ==> s.hist.owner == Nobody)
  }

  /** While the loop lives, the slot names the one driver task that has not finished. */
  predicate SlotDiscipline(s: State) {
    && (forall d :: d in s.drivers && s.drivers[d].pc.Closing? ==> s.drivers[d].pc.to.Terminal())
    && (s.slot.Some? ==> s.slot.value in s.drivers)
    && (s.Live() ==>
          && (forall d :: d in s.drivers && !s.drivers[d].pc.Gone? ==> s.slot == Some(d))
          && (s.slot.Some? ==> !s.drivers[s.slot.value].pc.Gone?))
  }

  /** What only a terminal loop can show. */
  predicate AfterClose(s: State) {
    !s.Terminal() ==>
      && !s.boot.AuditingExpiry?
      && (forall o :: o in s.ops ==> !s.ops[o].OwesAudit())
      && (forall d :: d in s.drivers ==> !s.drivers[d].cancelled && !s.drivers[d].pc.Auditing?)
      && (!s.hist.storeError ==>
            forall d :: d in s.drivers && s.drivers[d].pc.Leaving? ==> s.drivers[d].pc.paused)
  }

  /** An active loop always has an owner, except after the named accidents. */
  predicate Driven(s: State) {
    s.Is(Active) ==>
      s.hist.owner != Nobody || s.hist.skippedArm || s.hist.storeError || !s.boot.Serving?
  }

  /** After a dropped arm nobody may tick the loop, and it is not paused, so no resume can help. */
  predicate Dropped(s: State) {
    s.hist.skippedArm ==> s.hist.owner == Nobody && s.row.Some? && !s.Is(Paused)
  }

  /** The driver that leaves a paused loop, or one about to be armed again, has paused it. */
  predicate LeftPaused(s: State) {
    s.Live() && (s.Is(Paused) || s.hist.owner.ByOp?) ==>
      forall d :: d in s.drivers && s.drivers[d].pc.Leaving? ==> s.drivers[d].pc.paused
  }

  predicate OwesAudit(s: State, a: Actor) {
    match a
    case Nobody => false
    case ByOp(o) => o in s.ops && s.ops[o].OwesAudit()
    case ByDriver(d) => d in s.drivers && s.drivers[d].pc.Auditing?
    case ByReplay => s.boot.AuditingExpiry?
  }

  /** Whoever made the row terminal is the only one that owes, or has written, its audit. */
  predicate Auditing(s: State) {
    && (s.hist.closer == Nobody <==> !s.Terminal())
    && (forall o :: o in s.ops && s.ops[o].OwesAudit() ==> s.hist.closer == ByOp(o))
    && (forall d :: d in s.drivers && s.drivers[d].pc.Auditing? ==> s.hist.closer == ByDriver(d))
    && (s.boot.AuditingExpiry? ==> s.hist.closer == ByReplay)
    && s.hist.audits <= 1
    && (OwesAudit(s, s.hist.closer) ==> s.hist.audits == 0)
    && (s.Terminal() && !s.hist.crashed && s.hist.audits == 0 ==> OwesAudit(s, s.hist.closer))
    && (!s.Terminal() ==> s.hist.audits == 0)
  }

  /** No stored or remembered count exceeds the budgets. */
  predicate Bounds(c: Config, s: State) {
    && (s.row.Some? ==> s.row.value.ticks <= c.maxTicks && s.row.value.failures <= 4)
    && (forall o :: o in s.ops && s.ops[o].ArmPending? ==>
          s.ops[o].local.ticks <= c.maxTicks && s.ops[o].local.failures <= 4)
    && (forall o :: o in s.ops && s.ops[o].ResumeRead? ==> s.ops[o].snapshot.ticks <= c.maxTicks)
    && (forall d :: d in s.drivers ==> DriverBounds(c, s.drivers[d]))
    && InTime(c, s)
  }

  predicate InTime(c: Config, s: State) {
    forall i :: 0 <= i < |s.hist.starts| ==> s.hist.starts[i] < c.expiresAt
  }

  predicate DriverBounds(c: Config, drv: Driver) {
    && drv.local.ticks <= c.maxTicks
    && (drv.pc.Metering? || drv.pc.Sleeping? || drv.pc.Starting? || drv.pc.Running?
        ==> drv.local.ticks < c.maxTicks)
    && (drv.pc == Closing(Failed) ==> drv.local.failures == 5)
    && (drv.pc.Working() && drv.pc != Closing(Failed) ==> drv.local.failures <= 4)
    && (drv.pc.Persisting? || drv.pc.Pausing? || drv.pc == Closing(Done) ==> drv.local.failures == 0)
  }

  /** Conservation: the owner's count accounts for every tick ever fired. */
  predicate Counted(c: Config, s: State) {
    !s.hist.crashed && !s.hist.storeError ==>
      && s.hist.fired <= c.maxTicks + s.hist.lost
      && (s.hist.owner.ByOp? && s.hist.owner.o in s.ops && s.ops[s.hist.owner.o].ArmPending? ==>
            s.hist.fired == s.ops[s.hist.owner.o].local.ticks + s.hist.lost)
      && (s.hist.owner.ByDriver? && s.hist.owner.d in s.drivers ==>
            var drv := s.drivers[s.hist.owner.d];
            && s.hist.fired == drv.local.ticks + s.hist.lost + (if drv.pc.Running? then 1 else 0)
            && (drv.pc.Pausing? && s.Is(Active) ==> s.row.value.ticks == drv.local.ticks))
      && (s.Is(Paused) ==> s.hist.fired == s.row.value.ticks + s.hist.lost)
      && (!s.hist.stale ==> s.hist.lost == 0)
  }

  /** The owner's failure count is the current streak; the fifth failure leads to `failed`. */
  predicate Streaks(s: State) {
    !s.hist.crashed ==>
      && s.hist.streak <= 5
      && (s.hist.owner.ByOp? && s.hist.owner.o in s.ops && s.ops[s.hist.owner.o].ArmPending? ==>
            s.ops[s.hist.owner.o].local.failures == s.hist.streak)
      && (s.hist.owner.ByDriver? && s.hist.owner.d in s.drivers ==>
            s.drivers[s.hist.owner.d].local.failures == s.hist.streak)
      && (s.hist.owner != Nobody && s.Terminal() ==> s.Is(Cancelled))
      && (s.hist.streak == 5 ==>
            s.Is(Failed) || s.Is(Cancelled) || Breaking(s)
            || (s.Is(Active) && s.hist.owner == Nobody && s.hist.storeError))
  }

  /** The owner is about to write `failed`. */
  predicate Breaking(s: State) {
    s.hist.owner.ByDriver? && s.hist.owner.d in s.drivers
    && s.drivers[s.hist.owner.d].pc == Closing(Failed)
  }

  predicate Shape(s: State) {
    && Unborn(s) && Quiet(s) && Ownership(s) && SlotDiscipline(s) && AfterClose(s)
    && Driven(s) && Dropped(s) && LeftPaused(s) && Auditing(s)
  }

  predicate Tally(c: Config, s: State) {
    Bounds(c, s) && Counted(c, s) && Streaks(s)
  }

  predicate Inv(c: Config, s: State) {
    Shape(s) && Tally(c, s)
  }

  // ---- every step keeps it ---------------------------------------------------------------

  /** A step in which driver `d` stays in its loop, perhaps writing its counts to the row. */
  predicate Stays(c: Config, s: State, s1: State, d: nat) {
    && d in s.drivers && d in s1.drivers
    && (var was, now := s.drivers[d], s1.drivers[d];
        && s1 == s.(row := s1.row, drivers := s.drivers[d := now],
                    hist := s.hist.(fired := s1.hist.fired, idle := s1.hist.idle, streak := s1.hist.streak,
                                    starts := s1.hist.starts, storeError := s1.hist.storeError,
                                    lostCounts := s1.hist.lostCounts))
        && was.pc.Working() && now.pc.Working() && now.cancelled == was.cancelled
        && DriverBounds(c, now) && (now.pc.Closing? ==> now.pc.to.Terminal())
        && (s1.row == s.row || (s.Is(Active) && was.local.failures <= 4
            && s1.row == Some(Row(Active, was.local.ticks, was.local.failures, was.local.nextAt))))
        && (s.hist.storeError ==> s1.hist.storeError)
        && (now.pc.Pausing? && s.Is(Active) && !s1.hist.storeError ==> s1.row.value.ticks == now.local.ticks)
        && s1.hist.fired - now.local.ticks - (if now.pc.Running? then 1 else 0)
           == s.hist.fired - was.local.ticks - (if was.pc.Running? then 1 else 0)
        && (s.hist.streak == was.local.failures ==> s1.hist.streak == now.local.failures)
        && InTime(c, s1))
  }

  lemma StayShape(c: Config, s: State, s1: State, d: nat)
    requires Inv(c, s) && Stays(c, s, s1, d)
    ensures Shape(s1)
  {
    hide Counted, Streaks, Bounds;
  }

  lemma StayTally(c: Config, s: State, s1: State, d: nat)
    requires Inv(c, s) && Stays(c, s, s1, d)
    ensures Tally(c, s1)
  {
    hide AfterClose, Auditing;
  }

  lemma StayKeepsInv(c: Config, s: State, s1: State, d: nat)
    requires Inv(c, s) && Stays(c, s, s1, d)
    ensures Inv(c, s1)
  {
    hide Shape, Tally, Stays;
    StayShape(c, s, s1, d);
    StayTally(c, s, s1, d);
  }

  lemma GateStays(c: Config, s: State, d: nat, move: Move)
    requires InTime(c, s) && d in s.drivers && DriverBounds(c, s.drivers[d]) && DriverStep(c, s, d, move).Some?
    requires move.Gate?
    ensures Stays(c, s, DriverStep(c, s, d, move).value, d)
  {}

  lemma MeterStays(c: Config, s: State, d: nat, move: Move)
    requires InTime(c, s) && d in s.drivers && DriverBounds(c, s.drivers[d]) && DriverStep(c, s, d, move).Some?
    requires move.Meter?
    ensures Stays(c, s, DriverStep(c, s, d, move).value, d)
  {}

  lemma WakeStays(c: Config, s: State, d: nat, move: Move)
    requires InTime(c, s) && d in s.drivers && DriverBounds(c, s.drivers[d]) && DriverStep(c, s, d, move).Some?
    requires move.Wake?
    ensures Stays(c, s, DriverStep(c, s, d, move).value, d)
  {}

  /** The three ways a tick ends with the loop going on: skipped, failed or passed. */
  lemma SettleStays(c: Config, s: State, s0: State, d: nat, l: Local, nextAt: int)
    requires InTime(c, s) && d in s.drivers && DriverBounds(c, s.drivers[d])
    requires var drv := s.drivers[d];
             && (drv.pc.Starting? || drv.pc.Running?)
             && s0 == s.(hist := s.hist.(fired := s0.hist.fired, idle := s0.hist.idle, streak := s0.hist.streak))
             && (|| (l == drv.local && drv.pc.Starting? && s0 == Idle(s))
                 || (l == TickFailed(drv.local) && s0.hist.streak == s.hist.streak + 1)
                 || (l == TickPassed(drv.local) && s0.hist.streak == 0))
             && (l != drv.local ==> s0.hist.fired == s.hist.fired + if drv.pc.Starting? then 1 else 0)
    ensures Stays(c, s, SettleAt(s0, d, s.drivers[d], l, nextAt), d)
  {}

  lemma SkipStays(c: Config, s: State, d: nat)
    requires InTime(c, s) && d in s.drivers && DriverBounds(c, s.drivers[d]) && s.drivers[d].pc.Starting?
    ensures Stays(c, s, DriverStep(c, s, d, RunTurn(TurnInFlight)).value, d)
  {
    hide Stays;
    var l := s.drivers[d].local;
    SettleStays(c, s, Idle(s), d, l, s.now + NextTickDelay(c.pacing, l.failures, None));
  }

  lemma StartFailStays(c: Config, s: State, d: nat)
    requires InTime(c, s) && d in s.drivers && DriverBounds(c, s.drivers[d]) && s.drivers[d].pc.Starting?
    ensures Stays(c, s, DriverStep(c, s, d, RunTurn(StartFailed)).value, d)
  {
    hide Stays;
    var s0, l := Streak(Fired(s), s.hist.streak + 1), TickFailed(s.drivers[d].local);
    SettleStays(c, s, s0, d, l, s.now + NextTickDelay(c.pacing, l.failures, None));
  }

  lemma RunTurnStays(c: Config, s: State, d: nat, start: StartResult)
    requires InTime(c, s) && d in s.drivers && DriverBounds(c, s.drivers[d]) && s.drivers[d].pc.Starting?
    ensures Stays(c, s, DriverStep(c, s, d, RunTurn(start)).value, d)
  {
    match start
    case TurnInFlight => SkipStays(c, s, d);
    case StartFailed => StartFailStays(c, s, d);
    case SessionGone =>
    case Launched =>
  }

  lemma FailStays(c: Config, s: State, d: nat)
    requires InTime(c, s) && d in s.drivers && DriverBounds(c, s.drivers[d]) && s.drivers[d].pc.Running?
    ensures Stays(c, s, DriverStep(c, s, d, Finish(NotCompleted)).value, d)
  {
    hide Stays;
    var s0, l := Streak(s, s.hist.streak + 1), TickFailed(s.drivers[d].local);
    SettleStays(c, s, s0, d, l, s.now + NextTickDelay(c.pacing, l.failures, None));
  }

  lemma PassStays(c: Config, s: State, d: nat, delay: Option<Request>)
    requires InTime(c, s) && d in s.drivers && DriverBounds(c, s.drivers[d]) && s.drivers[d].pc.Running?
    ensures Stays(c, s, DriverStep(c, s, d, Finish(Completed(NoIntent(delay)))).value, d)
  {
    hide Stays;
    SettleStays(c, s, Streak(s, 0), d, TickPassed(s.drivers[d].local), s.now + NextTickDelay(c.pacing, 0, delay));
  }

  lemma FinishStays(c: Config, s: State, d: nat, result: RunResult)
    requires InTime(c, s) && d in s.drivers && DriverBounds(c, s.drivers[d]) && s.drivers[d].pc.Running?
    ensures Stays(c, s, DriverStep(c, s, d, Finish(result)).value, d)
  {
    match result
    case NotCompleted => FailStays(c, s, d);
    case Completed(NoIntent(delay)) => PassStays(c, s, d, delay);
    case Completed(LoopDone) =>
    case Completed(LoopPause) =>
  }

  lemma PersistStays(c: Config, s: State, d: nat, ok: bool)
    requires InTime(c, s) && d in s.drivers && DriverBounds(c, s.drivers[d])
    requires s.drivers[d].pc.Persisting?
    ensures Stays(c, s, DriverStep(c, s, d, Write(ok)).value, d)
  {}

  lemma RecordStays(c: Config, s: State, d: nat)
    requires InTime(c, s) && d in s.drivers && DriverBounds(c, s.drivers[d])
    requires s.drivers[d].pc.Recording? && s.Is(Active)
    ensures Stays(c, s, DriverStep(c, s, d, Write(true)).value, d)
  {}

  /** A driver breaks out of its loop without moving the row: its write failed, or the row
      is terminal. */
  function Left(s: State, d: nat, failed: bool): State
    requires d in s.drivers
  {
    var s1 := Leave(s, d, s.drivers[d], false);
    if failed then StoreError(s1) else s1
  }

  lemma LeaveKeepsInv(c: Config, s: State, d: nat, failed: bool)
    requires Inv(c, s) && d in s.drivers && s.drivers[d].pc.Working() && (failed || !s.Live())
    ensures Inv(c, Left(s, d, failed))
  {
    LeaveShape(c, s, d, failed);
    LeaveTally(c, s, d, failed);
  }

  lemma LeaveShape(c: Config, s: State, d: nat, failed: bool)
    requires Shape(s) && d in s.drivers && s.drivers[d].pc.Working() && (failed || !s.Live())
    ensures Shape(Left(s, d, failed))
  {}

  lemma LeaveTally(c: Config, s: State, d: nat, failed: bool)
    requires Inv(c, s) && d in s.drivers && s.drivers[d].pc.Working() && (failed || !s.Live())
    ensures Tally(c, Left(s, d, failed))
  {}

  lemma PauseShape(c: Config, s: State, d: nat)
    requires Shape(s) && d in s.drivers && s.drivers[d].pc.Pausing? && s.Is(Active)
    ensures Shape(DriverStep(c, s, d, Write(true)).value)
  {}

  lemma PauseTally(c: Config, s: State, d: nat)
    requires Inv(c, s) && d in s.drivers && s.drivers[d].pc.Pausing? && s.Is(Active)
    ensures Tally(c, DriverStep(c, s, d, Write(true)).value)
  {}

  lemma CloseShape(c: Config, s: State, d: nat)
    requires Shape(s) && d in s.drivers && s.drivers[d].pc.Closing? && s.Live()
    ensures Shape(DriverStep(c, s, d, Write(true)).value)
  {}

  lemma CloseTally(c: Config, s: State, d: nat)
    requires Inv(c, s) && d in s.drivers && s.drivers[d].pc.Closing? && s.Live()
    ensures Tally(c, DriverStep(c, s, d, Write(true)).value)
  {}

  lemma AuditShape(s: State, d: nat)
    requires Shape(s) && d in s.drivers && s.drivers[d].pc.Auditing?
    ensures Shape(AuditWritten(Goto(s, d, s.drivers[d], Leaving(false))))
  {}

  lemma DropShape(s: State, d: nat)
    requires Shape(s) && d in s.drivers && s.drivers[d].pc.Leaving?
    ensures Shape(Goto(s, d, s.drivers[d], Gone).(slot := None))
  {}

  lemma AuditTally(c: Config, s: State, d: nat)
    requires Inv(c, s) && d in s.drivers && s.drivers[d].pc.Auditing?
    ensures Tally(c, AuditWritten(Goto(s, d, s.drivers[d], Leaving(false))))
  {
    hide Unborn, Quiet, SlotDiscipline, AfterClose, Driven, Dropped, Auditing;
  }

  lemma DropTally(c: Config, s: State, d: nat)
    requires Inv(c, s) && d in s.drivers && s.drivers[d].pc.Leaving?
    ensures Tally(c, Goto(s, d, s.drivers[d], Gone).(slot := None))
  {
    hide Shape;
  }

  lemma CancelWriteShape(c: Config, s: State, o: nat, ok: bool, d: nat)
    requires Shape(s) && o in s.ops && s.ops[o].CancelRead? && OpStep(s, o, ok, d).Some?
    ensures Shape(OpStep(s, o, ok, d).value)
  {}

  lemma CancelWriteTally(c: Config, s: State, o: nat, ok: bool, d: nat)
    requires Inv(c, s) && o in s.ops && s.ops[o].CancelRead? && OpStep(s, o, ok, d).Some?
    ensures Tally(c, OpStep(s, o, ok, d).value)
  {}

  lemma SignalShape(s: State, o: nat)
    requires Shape(s) && o in s.ops && s.ops[o].CancelMoved?
    ensures Shape(WithOp(Signalled(s), o, CancelSignalled))
  {}

  lemma AuditOpShape(s: State, o: nat)
    requires Shape(s) && o in s.ops && s.ops[o].CancelSignalled?
    ensures Shape(AuditWritten(EndOp(s, o)))
  {}

  lemma SignalTally(c: Config, s: State, o: nat)
    requires Inv(c, s) && o in s.ops && s.ops[o].CancelMoved?
    ensures Tally(c, WithOp(Signalled(s), o, CancelSignalled))
  {
    hide Unborn, Quiet, Driven, Dropped;
  }

  lemma AuditOpTally(c: Config, s: State, o: nat)
    requires Inv(c, s) && o in s.ops && s.ops[o].CancelSignalled?
    ensures Tally(c, AuditWritten(EndOp(s, o)))
  {}

  lemma ResumeShape(c: Config, s: State, o: nat, ok: bool, d: nat)
    requires Shape(s) && o in s.ops && s.ops[o].ResumeRead? && OpStep(s, o, ok, d).Some?
    ensures Shape(OpStep(s, o, ok, d).value)
  {}

  lemma ResumeTally(c: Config, s: State, o: nat, ok: bool, d: nat)
    requires Inv(c, s) && o in s.ops && s.ops[o].ResumeRead? && OpStep(s, o, ok, d).Some?
    ensures Tally(c, OpStep(s, o, ok, d).value)
  {}

  /** An arm is dropped, or takes the slot. */
  lemma DroppedArmKeepsInv(c: Config, s: State, o: nat, d: nat)
    requires Inv(c, s) && o in s.ops && s.ops[o].ArmPending? && s.slot.Some?
    ensures Inv(c, Armed(s, o, s.ops[o].local, d))
  {}

  lemma ArmShape(s: State, o: nat, d: nat)
    requires Shape(s) && o in s.ops && s.ops[o].ArmPending? && s.slot.None? && d !in s.drivers
    ensures Shape(Armed(s, o, s.ops[o].local, d))
  {}

  lemma ArmTally(c: Config, s: State, o: nat, d: nat)
    requires Inv(c, s) && o in s.ops && s.ops[o].ArmPending? && s.slot.None? && d !in s.drivers
    ensures Tally(c, Armed(s, o, s.ops[o].local, d))
  {}

  lemma ArmKeepsInv(c: Config, s: State, o: nat, d: nat)
    requires Inv(c, s) && o in s.ops && s.ops[o].ArmPending? && d !in s.drivers
    ensures Inv(c, Armed(s, o, s.ops[o].local, d))
  {
    hide Shape, Tally;
    if s.slot.Some? {
      DroppedArmKeepsInv(c, s, o, d);
    } else {
      ArmShape(s, o, d);
      ArmTally(c, s, o, d);
    }
  }

  lemma CreateShape(c: Config, s: State, step: Step)
    requires Shape(s) && Next(c, s, step).Some? && step.Create?
    ensures Shape(Next(c, s, step).value)
  {
    hide DriverStep, OpStep;
  }

  lemma CancelGetShape(c: Config, s: State, o: nat)
    requires Shape(s) && Next(c, s, CancelGet(o)).Some?
    ensures Shape(Next(c, s, CancelGet(o)).value)
  {
    hide DriverStep, OpStep;
  }

  lemma ResumeGetShape(c: Config, s: State, o: nat)
    requires Shape(s) && Next(c, s, ResumeGet(o)).Some?
    ensures Shape(Next(c, s, ResumeGet(o)).value)
  {
    hide DriverStep, OpStep;
  }

  lemma ClockShape(c: Config, s: State, step: Step)
    requires Shape(s) && Next(c, s, step).Some? && step.Clock?
    ensures Shape(Next(c, s, step).value)
  {
    hide DriverStep, OpStep;
  }

  lemma CallShape(c: Config, s: State, step: Step)
    requires Shape(s) && Next(c, s, step).Some? && (step.Create? || step.CancelGet? || step.ResumeGet? || step.Clock?)
    ensures Shape(Next(c, s, step).value)
  {
    if step.Create? { CreateShape(c, s, step); }
    else if step.Clock? { ClockShape(c, s, step); }
    else if step.CancelGet? { CancelGetShape(c, s, step.o); }
    else { ResumeGetShape(c, s, step.o); }
  }

  lemma CreateTally(c: Config, s: State, step: Step)
    requires Inv(c, s) && Next(c, s, step).Some? && step.Create?
    ensures Tally(c, Next(c, s, step).value)
  {
    hide DriverStep, OpStep;
  }

  lemma CancelGetTally(c: Config, s: State, o: nat)
    requires Inv(c, s) && Next(c, s, CancelGet(o)).Some?
    ensures Tally(c, Next(c, s, CancelGet(o)).value)
  {
    hide DriverStep, OpStep, Ownership, SlotDiscipline, AfterClose, Auditing;
  }

  lemma ResumeGetTally(c: Config, s: State, o: nat)
    requires Inv(c, s) && Next(c, s, ResumeGet(o)).Some?
    ensures Tally(c, Next(c, s, ResumeGet(o)).value)
  {
    hide DriverStep, OpStep;
  }

  lemma ClockTally(c: Config, s: State, step: Step)
    requires Inv(c, s) && Next(c, s, step).Some? && step.Clock?
    ensures Tally(c, Next(c, s, step).value)
  {
    hide DriverStep, OpStep;
  }

  lemma CallTally(c: Config, s: State, step: Step)
    requires Inv(c, s) && Next(c, s, step).Some? && (step.Create? || step.CancelGet? || step.ResumeGet? || step.Clock?)
    ensures Tally(c, Next(c, s, step).value)
  {
    if step.Create? { CreateTally(c, s, step); }
    else if step.Clock? { ClockTally(c, s, step); }
    else if step.CancelGet? { CancelGetTally(c, s, step.o); }
    else { ResumeGetTally(c, s, step.o); }
  }

  lemma CrashShape(c: Config, s: State, step: Step)
    requires Shape(s) && Next(c, s, step).Some? && step.Crash?
    ensures Shape(Next(c, s, step).value)
  {
    hide DriverStep, OpStep;
  }

  lemma CrashTally(c: Config, s: State, step: Step)
    requires Inv(c, s) && Next(c, s, step).Some? && step.Crash?
    ensures Tally(c, Next(c, s, step).value)
  {
    hide DriverStep, OpStep;
  }

  lemma ReplayShape(c: Config, s: State, step: Step)
    requires Shape(s) && Next(c, s, step).Some? && step.Replay?
    ensures Shape(Next(c, s, step).value)
  {
    hide DriverStep, OpStep;
  }

  lemma ReplayTally(c: Config, s: State, step: Step)
    requires Inv(c, s) && Next(c, s, step).Some? && step.Replay?
    ensures Tally(c, Next(c, s, step).value)
  {
    hide DriverStep, OpStep, Ownership, SlotDiscipline, AfterClose, Auditing;
  }

  lemma ExpiryShape(c: Config, s: State, step: Step)
    requires Shape(s) && Next(c, s, step).Some? && (step.ReplayClose? || step.ReplayAudit?)
    ensures Shape(Next(c, s, step).value)
  {
    hide DriverStep, OpStep;
  }

  lemma ExpiryTally(c: Config, s: State, step: Step)
    requires Inv(c, s) && Next(c, s, step).Some? && (step.ReplayClose? || step.ReplayAudit?)
    ensures Tally(c, Next(c, s, step).value)
  {
    hide DriverStep, OpStep;
  }

  /** A paused loop has no running driver, and a signalled driver has no living loop. */
  lemma WorkingRow(s: State, d: nat)
    requires Shape(s) && d in s.drivers && s.drivers[d].pc.Working()
    ensures s.Live() ==> s.Is(Active) && !s.drivers[d].cancelled
  {}

  lemma RecordKeepsInv(c: Config, s: State, d: nat, ok: bool)
    requires Inv(c, s) && d in s.drivers
    requires s.drivers[d].pc.Recording? || s.drivers[d].pc.Persisting?
    ensures Inv(c, DriverStep(c, s, d, Write(ok)).value)
  {
    hide Shape, Stays;
    if s.drivers[d].pc.Persisting? {
      PersistStays(c, s, d, ok);
      StayKeepsInv(c, s, DriverStep(c, s, d, Write(ok)).value, d);
    } else if ok && s.Is(Active) {
      RecordStays(c, s, d);
      StayKeepsInv(c, s, DriverStep(c, s, d, Write(ok)).value, d);
    } else {
      WorkingRow(s, d);
      LeaveKeepsInv(c, s, d, !ok);
    }
  }

  lemma PauseWriteKeepsInv(c: Config, s: State, d: nat, ok: bool)
    requires Inv(c, s) && d in s.drivers && s.drivers[d].pc.Pausing?
    ensures Inv(c, DriverStep(c, s, d, Write(ok)).value)
  {
    hide Shape, Stays;
    if ok && s.Is(Active) {
      PauseShape(c, s, d);
      PauseTally(c, s, d);
    } else {
      WorkingRow(s, d);
      LeaveKeepsInv(c, s, d, !ok);
    }
  }

  lemma CloseWriteKeepsInv(c: Config, s: State, d: nat, ok: bool)
    requires Inv(c, s) && d in s.drivers && s.drivers[d].pc.Closing?
    ensures Inv(c, DriverStep(c, s, d, Write(ok)).value)
  {
    hide Shape, Tally;
    if ok && s.Live() {
      CloseShape(c, s, d);
      CloseTally(c, s, d);
    } else {
      LeaveKeepsInv(c, s, d, !ok);
    }
  }

  lemma DriverKeepsInv(c: Config, s: State, d: nat, move: Move)
    requires Inv(c, s) && d in s.drivers && DriverStep(c, s, d, move).Some?
    ensures Inv(c, DriverStep(c, s, d, move).value)
  {
    hide Shape, Stays;
    var s1 := DriverStep(c, s, d, move).value;
    match move
    case Gate => GateStays(c, s, d, move); StayKeepsInv(c, s, s1, d);
    case Meter(_) => MeterStays(c, s, d, move); StayKeepsInv(c, s, s1, d);
    case Wake => WakeStays(c, s, d, move); StayKeepsInv(c, s, s1, d);
    case RunTurn(start) => RunTurnStays(c, s, d, start); StayKeepsInv(c, s, s1, d);
    case Finish(result) => FinishStays(c, s, d, result); StayKeepsInv(c, s, s1, d);
    case SeeCancel => WorkingRow(s, d); LeaveKeepsInv(c, s, d, false);
    case Write(ok) =>
      if s.drivers[d].pc.Recording? || s.drivers[d].pc.Persisting? { RecordKeepsInv(c, s, d, ok); }
      else if s.drivers[d].pc.Pausing? { PauseWriteKeepsInv(c, s, d, ok); }
      else { CloseWriteKeepsInv(c, s, d, ok); }
    case Audit => AuditShape(s, d); AuditTally(c, s, d);
    case Drop => DropShape(s, d); DropTally(c, s, d);
  }

  lemma OpKeepsInv(c: Config, s: State, o: nat, ok: bool, d: nat)
    requires Inv(c, s) && o in s.ops && OpStep(s, o, ok, d).Some?
    ensures Inv(c, OpStep(s, o, ok, d).value)
  {
    hide Shape, Stays;
    match s.ops[o]
    case CancelRead => CancelWriteShape(c, s, o, ok, d); CancelWriteTally(c, s, o, ok, d);
    case CancelMoved => SignalShape(s, o); SignalTally(c, s, o);
    case CancelSignalled => AuditOpShape(s, o); AuditOpTally(c, s, o);
    case ResumeRead(_) => ResumeShape(c, s, o, ok, d); ResumeTally(c, s, o, ok, d);
    case ArmPending(_) => ArmKeepsInv(c, s, o, d);
  }

  /** Every step of every task keeps the invariant. */
  lemma StepKeepsInv(c: Config, s: State, step: Step)
    requires Inv(c, s) && Next(c, s, step).Some?
    ensures Inv(c, Next(c, s, step).value)
  {
    if step.Drive? { DriverKeepsInv(c, s, step.d, step.move); }
    else if step.Proceed? { OpKeepsInv(c, s, step.o, step.ok, step.d); }
    else if step.Crash? { CrashShape(c, s, step); CrashTally(c, s, step); }
    else if step.Replay? { ReplayShape(c, s, step); ReplayTally(c, s, step); }
    else if step.ReplayClose? || step.ReplayAudit? { ExpiryShape(c, s, step); ExpiryTally(c, s, step); }
    else { CallShape(c, s, step); CallTally(c, s, step); }
  }

  lemma {:induction false} RunKeepsInv(c: Config, s: State, steps: seq<Step>)
    requires Inv(c, s) && Run(c, s, steps).Some?
    ensures Inv(c, Run(c, s, steps).value)
    decreases |steps|
  {
    if steps != [] {
      StepKeepsInv(c, s, steps[0]);
      RunKeepsInv(c, Next(c, s, steps[0]).value, steps[1..]);
    }
  }
}
