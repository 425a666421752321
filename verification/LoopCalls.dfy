/** What each call on a /loop does as a whole, and what may happen to its row at all. */
module LoopCalls {
  import opened Wrappers
  import opened LoopTiming
  import opened LoopModel
  import opened LoopSafety
  import LoopPaths

  // ---- the row ---------------------------------------------------------------------------

  /** What one step may make of a row: a pause or an end changes its status only; a resume keeps
      the tick count and clears the failures; and a driver writes its own counts to an active row. */
  predicate RowMoves(s: State, r: Row, r1: Row, step: Step) {
    || (!r.status.Terminal() && r1.status.Terminal() && r1 == r.(status := r1.status))
    || (r.status.Active? && r1 == r.(status := Paused) && step.Drive?)
    || (r.status.Paused? && r1.status.Active? && r1.ticks == r.ticks && r1.failures == 0 && step.Proceed?)
    || (r.status.Active? && r1.status.Active? && step.Drive? && step.d in s.drivers
        && LocalOf(r1) == s.drivers[step.d].local)
  }

  /** The steps that write to the store, and succeed. */
  predicate Writing(step: Step) {
    || step.Create? || (step.Proceed? && step.ok) || (step.ReplayClose? && step.ok)
    || (step.Drive? && step.move == Write(true))
  }

  predicate RowKept(s: State, s1: State, step: Step) {
    || s1.row == s.row
    || (Writing(step) && s.row.None? && s1.row.Some? && step.Create?
        && s1.row.value.status.Active? && s1.row.value.ticks == 0 && s1.row.value.failures == 0)
    || (Writing(step) && s.row.Some? && s1.row.Some? && RowMoves(s, s.row.value, s1.row.value, step))
  }

  lemma DriverKeepsRow(c: Config, s: State, d: nat, move: Move)
    requires SlotDiscipline(s) && Bounds(c, s) && d in s.drivers && DriverStep(c, s, d, move).Some?
    ensures RowKept(s, DriverStep(c, s, d, move).value, Drive(d, move))
  {
    hide NextTickDelay;
  }

  lemma CallKeepsRow(c: Config, s: State, step: Step)
    requires Next(c, s, step).Some? && !step.Drive?
    ensures RowKept(s, Next(c, s, step).value, step)
  {
    hide DriverStep;
  }

  lemma StepKeepsRow(c: Config, s: State, step: Step)
    requires Inv(c, s) && Next(c, s, step).Some?
    ensures RowKept(s, Next(c, s, step).value, step)
  {
    hide RowKept, DriverStep, OpStep;
    if step.Drive? { DriverKeepsRow(c, s, step.d, step.move); } else { CallKeepsRow(c, s, step); }
  }

  /** In every run, only a successful write changes the row, and only in these ways; a row that
      exists never goes away. */
  lemma RowChanges(c: Config, now: int, steps: seq<Step>, step: Step)
    requires Run(c, Init(now), steps).Some? && Next(c, Run(c, Init(now), steps).value, step).Some?
    ensures var s := Run(c, Init(now), steps).value; RowKept(s, Next(c, s, step).value, step)
  {
    hide RowKept, Next, Inv;
    RunKeepsInv(c, Init(now), steps);
    StepKeepsRow(c, Run(c, Init(now), steps).value, step);
  }

  // ---- whole calls -----------------------------------------------------------------------

  lemma RunTwo(c: Config, s: State, a: Step, b: Step)
    requires Next(c, s, a).Some?
    ensures Run(c, s, [a, b]) == Next(c, Next(c, s, a).value, b)
  {
    hide Next;
    assert [a] == [] + [a] && [a, b] == [a] + [b];
    LoopPaths.RunSnoc(c, s, [], a);
    LoopPaths.RunSnoc(c, s, [a], b);
  }

  lemma RunThree(c: Config, s: State, a: Step, b: Step, d: Step)
    requires Run(c, s, [a, b]).Some?
    ensures Run(c, s, [a, b, d]) == Next(c, Run(c, s, [a, b]).value, d)
  {
    hide Next;
    assert [a, b, d] == [a, b] + [d];
    LoopPaths.RunSnoc(c, s, [a, b], d);
  }

  predicate Free(s: State, o: nat) { s.boot.Serving? && o !in s.ops }

  /** A cancel nobody interferes with: the row is cancelled and else as before, the slot is free,
      one entry is audited, and every driver task that has not finished is told to stop. */
  lemma CancelAtOnce(c: Config, now: int, steps: seq<Step>, o: nat, e: nat)
    requires Run(c, Init(now), steps).Some?
    requires var s := Run(c, Init(now), steps).value; Free(s, o) && s.Live()
    ensures var s := Run(c, Init(now), steps).value;
            var run := Run(c, s, [CancelGet(o), Proceed(o, true, e), Proceed(o, true, e), Proceed(o, true, e)]);
            && run.Some?
            && var s1 := run.value;
               && s1.row == Some(s.row.value.(status := Cancelled)) && s1.slot.None?
               && s1.ops == s.ops && s1.hist.audits == s.hist.audits + 1
               && s1.drivers.Keys == s.drivers.Keys
               && forall d :: d in s.drivers ==>
                    s1.drivers[d] == if s.drivers[d].pc.Gone? then s.drivers[d] else s.drivers[d].(cancelled := true)
  {
    RunKeepsInv(c, Init(now), steps);
    var s := Run(c, Init(now), steps).value;
    var get, go := CancelGet(o), Proceed(o, true, e);
    var moved := WithOp(Terminalised(s, Cancelled, ByOp(o)), o, CancelMoved);
    hide Inv, Next, Signalled;
    CancelWrites(c, s, o, e);
    SignalTells(c, s, moved, o, e);
    RunTwo(c, s, get, go);
    RunThree(c, s, get, go, go);
    assert [get, go, go, go] == [get, go, go] + [go];
    LoopPaths.RunSnoc(c, s, [get, go, go], go);
  }

  lemma CancelWrites(c: Config, s: State, o: nat, e: nat)
    requires Free(s, o) && s.Live()
    ensures Next(c, s, CancelGet(o)).Some?
    ensures Next(c, Next(c, s, CancelGet(o)).value, Proceed(o, true, e))
            == Some(WithOp(Terminalised(s, Cancelled, ByOp(o)), o, CancelMoved))
  {
    assert s.ops[o := CancelRead][o := CancelMoved] == s.ops[o := CancelMoved];
  }

  lemma SignalTells(c: Config, s: State, moved: State, o: nat, e: nat)
    requires Inv(c, s) && Free(s, o) && s.Live() && moved == WithOp(Terminalised(s, Cancelled, ByOp(o)), o, CancelMoved)
    ensures Next(c, moved, Proceed(o, true, e)) == Some(WithOp(Signalled(moved), o, CancelSignalled))
    ensures var s1 := Signalled(moved);
            && Next(c, WithOp(s1, o, CancelSignalled), Proceed(o, true, e)) == Some(AuditWritten(s1.(ops := s.ops)))
            && s1.row == moved.row && s1.hist == moved.hist && s1.slot.None? && s1.drivers.Keys == s.drivers.Keys
            && forall d :: d in s.drivers ==>
                 s1.drivers[d] == if s.drivers[d].pc.Gone? then s.drivers[d] else s.drivers[d].(cancelled := true)
  {
    hide Tally, DriverStep, Driven, Dropped, LeftPaused, AfterClose, LoopSafety.Auditing, Quiet, Unborn, Ownership;
    assert s.ops[o := CancelMoved][o := CancelSignalled] - {o} == s.ops;
  }

  /** A cancel that comes too late, and a cancel or resume whose write fails, leave everything as
      it was. */
  lemma RefusedCallChangesNothing(c: Config, s: State, o: nat, ok: bool, e: nat)
    requires Free(s, o) && s.row.Some?
    ensures !ok || !s.Live() ==> Run(c, s, [CancelGet(o), Proceed(o, ok, e)]) == Some(s)
    ensures !ok && s.Is(Paused) ==> Run(c, s, [ResumeGet(o), Proceed(o, ok, e)]) == Some(s)
    ensures !s.Is(Paused) ==> Next(c, s, ResumeGet(o)).None?
  {
    RunTwo(c, s, CancelGet(o), Proceed(o, ok, e));
    var read := LocalOf(s.row.value).(nextAt := s.now + c.pacing.interval);
    assert s.ops[o := CancelRead] - {o} == s.ops && s.ops[o := ResumeRead(read)] - {o} == s.ops;
    if s.Is(Paused) { RunTwo(c, s, ResumeGet(o), Proceed(o, ok, e)); }
  }

  /** A new driver at work from these counts, in the slot. */
  predicate Drives(s: State, s1: State, d: nat, l: Local) {
    && s1.slot == Some(d) && s1.drivers == s.drivers[d := Driver(l, false, Top)] && s1.ops == s.ops
    && s1.row == Some(Row(Active, l.ticks, l.failures, l.nextAt)) && s1.now == s.now
  }

  /** A create nobody interferes with: an active row without ticks, and a driver that has it from
      one interval ahead. */
  lemma CreateAtOnce(c: Config, now: int, steps: seq<Step>, o: nat, ok: bool, d: nat)
    requires Run(c, Init(now), steps).Some?
    requires var s := Run(c, Init(now), steps).value; Free(s, o) && s.row.None? && d !in s.drivers
    ensures var s := Run(c, Init(now), steps).value;
            var run := Run(c, s, [Create(o), Proceed(o, ok, d)]);
            run.Some? && Drives(s, run.value, d, Local(0, 0, s.now + c.pacing.interval))
  {
    RunKeepsInv(c, Init(now), steps);
    var s := Run(c, Init(now), steps).value;
    hide Tally, DriverStep;
    RunTwo(c, s, Create(o), Proceed(o, ok, d));
  }

  /** A resume nobody interferes with: the row is active again with its tick count and no failures,
      one interval ahead; and a driver goes on from there, unless the pausing one still holds the
      slot. */
  lemma ResumeAtOnce(c: Config, s: State, o: nat, ok: bool, d: nat)
    requires Free(s, o) && s.Is(Paused) && d !in s.drivers
    ensures var run := Run(c, s, [ResumeGet(o), Proceed(o, true, d), Proceed(o, ok, d)]);
            var l := Local(s.row.value.ticks, 0, s.now + c.pacing.interval);
            && run.Some?
            && if s.slot.None? then Drives(s, run.value, d, l)
               else run.value.drivers == s.drivers && run.value.slot == s.slot && run.value.ops == s.ops
                    && run.value.row == Some(Row(Active, l.ticks, 0, l.nextAt))
  {
    var get, go, arm := ResumeGet(o), Proceed(o, true, d), Proceed(o, ok, d);
    RunTwo(c, s, get, go);
    RunThree(c, s, get, go, arm);
    var read := LocalOf(s.row.value).(nextAt := s.now + c.pacing.interval);
    assert s.ops[o := ResumeRead(read)][o := ArmPending(read.(failures := 0))] - {o} == s.ops;
  }

  /** The boot replay of a row it need not drive: an expired one is closed and audited, without a
      driver; any other is left alone. */
  lemma ReplayAtOnce(c: Config, now: int, steps: seq<Step>, o: nat)
    requires Run(c, Init(now), steps).Some? && Run(c, Init(now), steps).value.boot.Listing?
    ensures var s := Run(c, Init(now), steps).value;
            && (!s.Is(Active) ==> Next(c, s, Replay(o, true)) == Some(s.(boot := Serving)))
            && (s.Is(Active) && c.expiresAt <= s.now ==>
                  var run := Run(c, s, [Replay(o, true), ReplayClose(true), ReplayAudit]);
                  && run.Some? && run.value.row == Some(s.row.value.(status := BudgetExhausted))
                  && run.value.boot.Serving? && run.value.hist.audits == s.hist.audits + 1
                  && run.value.drivers == map[] && run.value.ops == map[] && run.value.slot.None?)
  {
    RunKeepsInv(c, Init(now), steps);
    var s := Run(c, Init(now), steps).value;
    hide Bounds, Counted, Streaks, Driven, Dropped, DriverStep, OpStep, LeftPaused;
    if s.Is(Active) && c.expiresAt <= s.now {
      RunTwo(c, s, Replay(o, true), ReplayClose(true));
      RunThree(c, s, Replay(o, true), ReplayClose(true), ReplayAudit);
    }
  }
}
