/** What the tick budget of a loop is worth over runs with crashes and failed writes. */
module LoopAccidents {
  import opened Wrappers
  import opened LoopTiming
  import opened LoopModel
  import opened LoopSafety

  /** Ticks that may have been returned to the budget: one for each crash and each lost tick count,
      and what stale resumes gave back. */
  function Returned(s: State): nat { s.hist.givenBack + s.hist.lostCounts + s.hist.crashes }

  /** The stored count is up to date, but for what was returned. */
  predicate RowCounts(s: State) { s.row.Some? ==> s.hist.fired <= s.row.value.ticks + Returned(s) }

  /** It may lag behind by the tick of a driver between its turn and its next store write. */
  predicate RowLags(s: State) { s.row.Some? ==> s.hist.fired <= s.row.value.ticks + Returned(s) + 1 }

  /** Nobody is in the middle of a tick. */
  predicate BetweenTicks(s: State) {
    || s.Is(Paused) || s.hist.owner.ByOp? || !s.boot.Serving? || EndedInOrder(s)
    || (s.hist.owner.ByDriver? && s.hist.owner.d in s.drivers
        && (|| s.drivers[s.hist.owner.d].pc.MayFire()
            || (s.Live() && (|| s.drivers[s.hist.owner.d].pc.Pausing?
                             || (s.drivers[s.hist.owner.d].pc.Closing?
                                 && s.drivers[s.hist.owner.d].pc.to in {Done, BudgetExhausted})))))
  }

  /** The loop is over because the agent said so or a budget ran out. */
  predicate EndedInOrder(s: State) { s.Is(Done) || s.Is(BudgetExhausted) }

  /** Whoever may tick has counted every tick, but for what was returned. */
  predicate OwnerCounts(s: State) {
    match s.hist.owner
    case ByOp(o) => o in s.ops && s.ops[o].ArmPending? ==> s.hist.fired <= s.ops[o].local.ticks + Returned(s)
    case ByDriver(d) => d in s.drivers ==> DriverCounts(s, s.drivers[d])
    case _ => true
  }

  predicate DriverCounts(s: State, drv: Driver) {
    s.hist.fired <= drv.local.ticks + Returned(s) + if drv.pc.Running? then 1 else 0
  }

  predicate Accounted(c: Config, s: State) {
    && RowLags(s) && (BetweenTicks(s) ==> RowCounts(s)) && OwnerCounts(s)
    && s.hist.fired <= c.maxTicks + Returned(s)
    && (EndedInOrder(s) ==> s.hist.owner.Nobody?)
    && (!s.hist.stale ==> s.hist.givenBack == 0)
    && (!s.hist.crashed && !s.hist.storeError ==> s.hist.lostCounts == 0)
  }

  // ---- every step keeps it ---------------------------------------------------------------

  /** A driver between its turn and its next store write. */
  lemma SettleAccounted(c: Config, s: State, s0: State, d: nat, l: Local, nextAt: int)
    requires s0 == s.(hist := s.hist.(fired := s0.hist.fired, idle := s0.hist.idle, streak := s0.hist.streak))
    requires s.hist.owner == ByDriver(d) && s.boot.Serving? && !s.Is(Paused) && d in s.drivers
    requires Accounted(c, s) && (s.drivers[d].pc.Starting? || s.drivers[d].pc.Running?)
    requires || s0.hist.fired == s.hist.fired
             || (&& s0.hist.fired == s.hist.fired + 1 && s.drivers[d].pc.Starting?
                 && s.drivers[d].local.ticks < c.maxTicks)
    requires s.drivers[d].local.ticks + s0.hist.fired - s.hist.fired + (if s.drivers[d].pc.Running? then 1 else 0)
             <= l.ticks
    ensures Accounted(c, SettleAt(s0, d, s.drivers[d], l, nextAt))
  {}

  lemma SkippedAccounted(c: Config, s: State, d: nat)
    requires s.hist.owner == ByDriver(d) && s.boot.Serving? && !s.Is(Paused) && d in s.drivers
    requires Accounted(c, s) && s.drivers[d].pc.Starting?
    ensures Accounted(c, DriverStep(c, s, d, RunTurn(TurnInFlight)).value)
  {
    hide SettleAt, Accounted, NextTickDelay;
    var drv := s.drivers[d];
    SettleAccounted(c, s, Idle(s), d, drv.local, s.now + NextTickDelay(c.pacing, drv.local.failures, None));
  }

  lemma StartFailedAccounted(c: Config, s: State, d: nat)
    requires s.hist.owner == ByDriver(d) && s.boot.Serving? && !s.Is(Paused) && d in s.drivers
    requires Accounted(c, s) && DriverBounds(c, s.drivers[d]) && s.drivers[d].pc.Starting?
    ensures Accounted(c, DriverStep(c, s, d, RunTurn(StartFailed)).value)
  {
    hide SettleAt, Accounted, NextTickDelay;
    var drv := s.drivers[d];
    SettleAccounted(c, s, Streak(Fired(s), s.hist.streak + 1), d, TickFailed(drv.local),
                    s.now + NextTickDelay(c.pacing, drv.local.failures + 1, None));
  }

  lemma StartAccounted(c: Config, s: State, d: nat, start: StartResult)
    requires s.hist.owner == ByDriver(d) && s.boot.Serving? && !s.Is(Paused) && d in s.drivers
    requires Accounted(c, s) && DriverBounds(c, s.drivers[d]) && s.drivers[d].pc.Starting?
    ensures Accounted(c, DriverStep(c, s, d, RunTurn(start)).value)
  {
    match start
    case TurnInFlight => SkippedAccounted(c, s, d);
    case StartFailed => StartFailedAccounted(c, s, d);
    case SessionGone =>
    case Launched =>
  }

  lemma FailedAccounted(c: Config, s: State, d: nat)
    requires s.hist.owner == ByDriver(d) && s.boot.Serving? && !s.Is(Paused) && d in s.drivers
    requires Accounted(c, s) && s.drivers[d].pc.Running?
    ensures Accounted(c, DriverStep(c, s, d, Finish(NotCompleted)).value)
  {
    hide SettleAt, Accounted, NextTickDelay;
    var drv := s.drivers[d];
    SettleAccounted(c, s, Streak(s, s.hist.streak + 1), d, TickFailed(drv.local),
                    s.now + NextTickDelay(c.pacing, drv.local.failures + 1, None));
  }

  lemma PassedAccounted(c: Config, s: State, d: nat, delay: Option<Request>)
    requires s.hist.owner == ByDriver(d) && s.boot.Serving? && !s.Is(Paused) && d in s.drivers
    requires Accounted(c, s) && s.drivers[d].pc.Running?
    ensures Accounted(c, DriverStep(c, s, d, Finish(Completed(NoIntent(delay)))).value)
  {
    hide SettleAt, Accounted, NextTickDelay;
    var drv := s.drivers[d];
    SettleAccounted(c, s, Streak(s, 0), d, TickPassed(drv.local), s.now + NextTickDelay(c.pacing, 0, delay));
  }

  lemma FinishAccounted(c: Config, s: State, d: nat, result: RunResult)
    requires s.hist.owner == ByDriver(d) && s.boot.Serving? && !s.Is(Paused) && d in s.drivers
    requires Accounted(c, s) && s.drivers[d].pc.Running?
    ensures Accounted(c, DriverStep(c, s, d, Finish(result)).value)
  {
    match result
    case NotCompleted => FailedAccounted(c, s, d);
    case Completed(NoIntent(delay)) => PassedAccounted(c, s, d, delay);
    case Completed(LoopDone) =>
    case Completed(LoopPause) =>
  }

  /** `record_tick`, after a tick or before the agent's last word takes effect. */
  lemma RecordAccounted(c: Config, s: State, d: nat, ok: bool)
    requires s.hist.owner == ByDriver(d) && s.boot.Serving? && !s.Is(Paused) && d in s.drivers
    requires Accounted(c, s) && (s.drivers[d].pc.Recording? || s.drivers[d].pc.Persisting?)
    ensures Accounted(c, Writes(s, d, s.drivers[d], ok).value)
  {}

  lemma PauseAccounted(c: Config, s: State, d: nat, ok: bool)
    requires s.hist.owner == ByDriver(d) && s.boot.Serving? && !s.Is(Paused) && d in s.drivers
    requires Accounted(c, s) && s.drivers[d].pc.Pausing?
    ensures Accounted(c, Writes(s, d, s.drivers[d], ok).value)
  {}

  lemma CloseAccounted(c: Config, s: State, d: nat, ok: bool)
    requires s.hist.owner == ByDriver(d) && s.boot.Serving? && !s.Is(Paused) && d in s.drivers
    requires Accounted(c, s) && s.drivers[d].pc.Closing? && s.drivers[d].pc.to.Terminal()
    ensures Accounted(c, Writes(s, d, s.drivers[d], ok).value)
  {}

  lemma WaitAccounted(c: Config, s: State, d: nat, move: Move)
    requires Ownership(s) && s.boot.Serving? && Accounted(c, s) && d in s.drivers && DriverStep(c, s, d, move).Some?
    requires move.Gate? || move.Meter? || move.Wake?
    ensures Accounted(c, DriverStep(c, s, d, move).value)
  {
    hide Writes, Settle;
  }

  lemma LeaveAccounted(c: Config, s: State, d: nat, move: Move)
    requires Ownership(s) && s.boot.Serving? && Accounted(c, s) && d in s.drivers && DriverStep(c, s, d, move).Some?
    requires move.SeeCancel? || move.Audit? || move.Drop?
    ensures Accounted(c, DriverStep(c, s, d, move).value)
  {
    hide Writes, Settle;
  }

  lemma MoveAccounted(c: Config, s: State, d: nat, move: Move)
    requires Inv(c, s) && Accounted(c, s) && d in s.drivers && DriverStep(c, s, d, move).Some?
    ensures Accounted(c, DriverStep(c, s, d, move).value)
  {
    hide Accounted;
    if move.RunTurn? { StartAccounted(c, s, d, move.start); }
    else if move.Finish? { FinishAccounted(c, s, d, move.result); }
    else if move.Gate? || move.Meter? || move.Wake? { WaitAccounted(c, s, d, move); }
    else if !move.Write? { LeaveAccounted(c, s, d, move); }
    else if s.drivers[d].pc.Pausing? { PauseAccounted(c, s, d, move.ok); }
    else if s.drivers[d].pc.Closing? { CloseAccounted(c, s, d, move.ok); }
    else { RecordAccounted(c, s, d, move.ok); }
  }

  lemma CancelAccounted(c: Config, s: State, o: nat, ok: bool, d: nat)
    requires Accounted(c, s) && o in s.ops && s.ops[o].CancelRead?
    ensures Accounted(c, OpStep(s, o, ok, d).value)
  {}

  lemma SignalAccounted(c: Config, s: State, o: nat, ok: bool, d: nat)
    requires Accounted(c, s) && o in s.ops && s.ops[o].OwesAudit()
    ensures Accounted(c, OpStep(s, o, ok, d).value)
  {}

  lemma ResumeAccounted(c: Config, s: State, o: nat, ok: bool, d: nat)
    requires Ownership(s) && Accounted(c, s) && o in s.ops && s.ops[o].ResumeRead?
    ensures Accounted(c, OpStep(s, o, ok, d).value)
  {}

  lemma ArmAccounted(c: Config, s: State, o: nat, ok: bool, d: nat)
    requires s.hist.owner == ByOp(o) && Accounted(c, s) && o in s.ops && s.ops[o].ArmPending? && d !in s.drivers
    ensures Accounted(c, OpStep(s, o, ok, d).value)
  {}

  lemma OpAccounted(c: Config, s: State, o: nat, ok: bool, d: nat)
    requires Ownership(s) && Accounted(c, s) && o in s.ops && OpStep(s, o, ok, d).Some?
    ensures Accounted(c, OpStep(s, o, ok, d).value)
  {
    hide Accounted;
    match s.ops[o]
    case CancelRead => CancelAccounted(c, s, o, ok, d);
    case CancelMoved => SignalAccounted(c, s, o, ok, d);
    case CancelSignalled => SignalAccounted(c, s, o, ok, d);
    case ResumeRead(_) => ResumeAccounted(c, s, o, ok, d);
    case ArmPending(_) => ArmAccounted(c, s, o, ok, d);
  }

  lemma CallAccounted(c: Config, s: State, step: Step)
    requires Unborn(s) && Quiet(s) && Accounted(c, s) && Next(c, s, step).Some?
    requires !step.Drive? && !step.Proceed?
    ensures Accounted(c, Next(c, s, step).value)
  {
    hide DriverStep, OpStep;
  }

  lemma StepAccounted(c: Config, s: State, step: Step)
    requires Inv(c, s) && Accounted(c, s) && Next(c, s, step).Some?
    ensures Accounted(c, Next(c, s, step).value)
  {
    hide Accounted, Tally, DriverStep, OpStep;
    if step.Drive? { MoveAccounted(c, s, step.d, step.move); }
    else if step.Proceed? { OpAccounted(c, s, step.o, step.ok, step.d); }
    else { CallAccounted(c, s, step); }
  }

  lemma {:induction false} RunAccounted(c: Config, s: State, steps: seq<Step>)
    requires Inv(c, s) && Accounted(c, s) && Run(c, s, steps).Some?
    ensures Accounted(c, Run(c, s, steps).value)
    decreases |steps|
  {
    hide Accounted, Inv, Next;
    if steps != [] {
      StepAccounted(c, s, steps[0]);
      StepKeepsInv(c, s, steps[0]);
      RunAccounted(c, Next(c, s, steps[0]).value, steps[1..]);
    }
  }

  /** In every run at all: each crash and each lost tick count costs at most one tick beyond the
      budget, and stale resumes at most what they gave back. */
  lemma BudgetOverAccidents(c: Config, now: int, steps: seq<Step>)
    requires Run(c, Init(now), steps).Some?
    ensures var s := Run(c, Init(now), steps).value;
            && s.hist.fired <= c.maxTicks + s.hist.givenBack + s.hist.crashes + s.hist.lostCounts
            && (!s.hist.stale ==> s.hist.fired <= c.maxTicks + s.hist.crashes + s.hist.lostCounts)
            && (s.row.Some? ==> s.hist.fired <= s.row.value.ticks + Returned(s) + 1)
            && (s.Is(Done) || s.Is(BudgetExhausted) ==> s.hist.fired <= s.row.value.ticks + Returned(s))
  {
    RunAccounted(c, Init(now), steps);
  }
}
