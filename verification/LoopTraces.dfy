/** Concrete interleavings of the /loop controller: counterexamples to the claims a reader would
    make without the side conditions of the theorems. */
module LoopTraces {
  import opened Wrappers
  import opened LoopTiming
  import opened LoopModel
  import opened LoopPaths
  import opened LoopTheorems

  /** A two-tick budget, one-second pacing, no token budget, expiry far away. */
  const SMALL := Config(2, 1000, 0, Pacing(Fixed, 1, 1, 1))

  ghost predicate Traced(trace: seq<Step>, s: State) { Reaches(SMALL, Init(0), trace, s) }

  /** Created at time 0, with driver 0 armed. */
  const ARMED := Init(0).(row := Some(Row(Active, 0, 0, 1)), slot := Some(0),
                          drivers := map[0 := Driver(Local(0, 0, 1), false, Top)],
                          hist := NO_HISTORY.(owner := ByDriver(0)))

  lemma CreatedAndArmed() returns (trace: seq<Step>)
    ensures Traced(trace, ARMED)
  {
    var s;
    trace, s := Go(SMALL, Init(0), [], Init(0), Create(0));
    trace, s := Go(SMALL, Init(0), trace, s, Proceed(0, true, 0));
    assert s.ops == map[] && s.drivers == ARMED.drivers;
  }

  /** The agent has paused the loop in its first tick; driver 0 still holds its slot. */
  const PAUSED := ARMED.(row := Some(Row(Paused, 1, 0, 1)), now := 1,
                         drivers := map[0 := Driver(Local(1, 0, 1), false, Leaving(true))],
                         hist := NO_HISTORY.(fired := 1, starts := [1]))

  lemma PausedOnce() returns (trace: seq<Step>)
    ensures Traced(trace, PAUSED)
  {
    trace := CreatedAndArmed();
    var s;
    trace, s := StartTick(SMALL, Init(0), trace, ARMED, 0, 1);
    trace, s := EndPausing(SMALL, Init(0), trace, s, 0);
    assert s.drivers == PAUSED.drivers && s.hist.starts == [1];
  }

  /** An operator has read the paused row and stored it active again. */
  const REACTIVATED := PAUSED.(row := Some(Row(Active, 1, 0, 2)), ops := map[1 := ArmPending(Local(1, 0, 2))],
                               hist := PAUSED.hist.(owner := ByOp(1)))

  lemma Reactivated() returns (trace: seq<Step>)
    ensures Traced(trace, REACTIVATED)
  {
    hide DriverStep, Reaches;
    trace := PausedOnce();
    var s;
    trace, s := Go(SMALL, Init(0), trace, PAUSED, ResumeGet(1));
    trace, s := Go(SMALL, Init(0), trace, s, Proceed(1, true, 0));
    assert s.ops == REACTIVATED.ops;
  }

  /** A resume that lands while the pausing driver still holds its slot spawns no driver: when
      that driver lets go, the loop is active and nobody drives it. */
  lemma ResumeBehindPausingDriverIsDropped() returns (trace: seq<Step>, s: State)
    ensures Traced(trace, s) && Undisturbed(s) && s.hist.skippedArm && Stranded(s)
    ensures s.Is(Active) && s.boot.Serving? && s.ops == map[] && s.slot.None?
    ensures forall d :: d in s.drivers ==> s.drivers[d].pc.Gone?
  {
    hide Reaches;
    trace := Reactivated();
    trace, s := Go(SMALL, Init(0), trace, REACTIVATED, Proceed(1, true, 1));
    trace, s := Go(SMALL, Init(0), trace, s, Drive(0, Drop));
  }

  const GONE := Driver(Local(1, 0, 1), false, Gone)
  const READ := ResumeRead(Local(1, 0, 2))

  /** Two operators have read the paused row. */
  const BOTH_READ := PAUSED.(slot := None, drivers := map[0 := GONE], ops := map[1 := READ, 2 := READ])

  lemma BothRead() returns (trace: seq<Step>)
    ensures Traced(trace, BOTH_READ)
  {
    trace := PausedOnce();
    var s;
    trace, s := Go(SMALL, Init(0), trace, PAUSED, Drive(0, Drop));
    trace, s := Go(SMALL, Init(0), trace, s, ResumeGet(1));
    trace, s := Go(SMALL, Init(0), trace, s, ResumeGet(2));
    assert s.drivers == BOTH_READ.drivers && s.ops == BOTH_READ.ops;
  }

  /** The first call has resumed the loop and armed driver 1. */
  const RESUMED := BOTH_READ.(row := Some(Row(Active, 1, 0, 2)), slot := Some(1), ops := map[2 := READ],
                              drivers := map[0 := GONE, 1 := Driver(Local(1, 0, 2), false, Top)],
                              hist := BOTH_READ.hist.(owner := ByDriver(1)))

  lemma FirstResumed() returns (trace: seq<Step>)
    ensures Traced(trace, RESUMED)
  {
    hide DriverStep, Reaches;
    trace := BothRead();
    var s;
    trace, s := Go(SMALL, Init(0), trace, BOTH_READ, Proceed(1, true, 0));
    trace, s := Go(SMALL, Init(0), trace, s, Proceed(1, true, 1));
    assert s.drivers == RESUMED.drivers && s.ops == RESUMED.ops;
  }

  /** Driver 1 ran on and paused the loop again. */
  const PAUSING_AGAIN := RESUMED.(row := Some(Row(Paused, 2, 0, 2)), now := 2,
                                  drivers := map[0 := GONE, 1 := Driver(Local(2, 0, 2), false, Leaving(true))],
                                  hist := NO_HISTORY.(fired := 2, starts := [1, 2]))

  lemma PausingTwice() returns (trace: seq<Step>)
    ensures Traced(trace, PAUSING_AGAIN)
  {
    hide OpStep, Reaches;
    trace := FirstResumed();
    var s;
    trace, s := StartTick(SMALL, Init(0), trace, RESUMED, 1, 2);
    trace, s := EndPausing(SMALL, Init(0), trace, s, 1);
    assert s.drivers == PAUSING_AGAIN.drivers && s.hist.starts == [1, 2];
  }

  /** It has let go of its slot; the second call has read the row before all that and not
      written yet. */
  const PAUSED_AGAIN := PAUSING_AGAIN.(slot := None,
                                       drivers := map[0 := GONE, 1 := Driver(Local(2, 0, 2), false, Gone)])

  lemma PausedTwice() returns (trace: seq<Step>)
    ensures Traced(trace, PAUSED_AGAIN)
  {
    hide OpStep, Reaches;
    trace := PausingTwice();
    var s;
    trace, s := Go(SMALL, Init(0), trace, PAUSING_AGAIN, Drive(1, Drop));
    assert s.drivers == PAUSED_AGAIN.drivers;
  }

  /** The second call then arms its driver with the old tick count: a budget of two ticks fires
      three, with no crash and no failed write. */
  lemma StaleResumeOverspends() returns (trace: seq<Step>, s: State)
    ensures Traced(trace, s) && Undisturbed(s) && s.hist.stale
    ensures s.hist.fired > SMALL.maxTicks
  {
    trace := PausedTwice();
    trace, s := Go(SMALL, Init(0), trace, PAUSED_AGAIN, Proceed(2, true, 0));
    trace, s := Go(SMALL, Init(0), trace, s, Proceed(2, true, 2));
    trace, s := StartTick(SMALL, Init(0), trace, s, 2, 2);
  }

  // ---- accidents -------------------------------------------------------------------------

  /** A budget of one tick. */
  const SINGLE := SMALL.(maxTicks := 1)

  ghost predicate TracedOnce(trace: seq<Step>, s: State) { Reaches(SINGLE, Init(0), trace, s) }

  /** The only tick is running. */
  const TICKING := ARMED.(drivers := map[0 := Driver(Local(0, 0, 1), false, Running)], now := 1,
                          hist := NO_HISTORY.(owner := ByDriver(0), fired := 1, starts := [1]))

  lemma TickRuns() returns (trace: seq<Step>)
    ensures TracedOnce(trace, TICKING)
  {
    var s;
    trace, s := Go(SINGLE, Init(0), [], Init(0), Create(0));
    trace, s := Go(SINGLE, Init(0), trace, s, Proceed(0, true, 0));
    assert s.ops == map[] && s.drivers == ARMED.drivers;
    trace, s := StartTick(SINGLE, Init(0), trace, ARMED, 0, 1);
    assert s.drivers == TICKING.drivers && s.hist.starts == [1];
  }

  /** The process crashed in it; the boot replay has armed driver 1 from the stored count. */
  const REARMED := TICKING.(slot := Some(1), drivers := map[1 := Driver(Local(0, 0, 1), false, Top)],
                            hist := TICKING.hist.(owner := ByDriver(1), crashes := 1))

  lemma CrashedAndReplayed() returns (trace: seq<Step>)
    ensures TracedOnce(trace, REARMED)
  {
    hide DriverStep, Reaches;
    trace := TickRuns();
    var s;
    trace, s := Go(SINGLE, Init(0), trace, TICKING, Crash);
    trace, s := Go(SINGLE, Init(0), trace, s, Replay(0, true));
    trace, s := Go(SINGLE, Init(0), trace, s, Proceed(0, true, 1));
    assert s.ops == map[] && s.drivers == REARMED.drivers;
  }

  /** A crash in a running tick costs a tick: the bound of the theorem is met exactly. */
  lemma CrashOverspends() returns (trace: seq<Step>, s: State)
    ensures TracedOnce(trace, s) && !s.hist.stale && !s.hist.storeError && s.hist.lostCounts == 0
    ensures s.hist.crashes == 1 && s.hist.fired == SINGLE.maxTicks + 1
  {
    hide Reaches;
    trace := CrashedAndReplayed();
    trace, s := StartTick(SINGLE, Init(0), trace, REARMED, 1, 1);
  }

  /** The agent has paused the loop in the tick; the write of the count was lost. */
  const UNCOUNTED := TICKING.(row := Some(Row(Paused, 0, 0, 1)),
                              drivers := map[0 := Driver(Local(1, 0, 1), false, Leaving(true))],
                              hist := TICKING.hist.(owner := Nobody, storeError := true, lostCounts := 1))

  lemma PausedUncounted() returns (trace: seq<Step>)
    ensures TracedOnce(trace, UNCOUNTED)
  {
    hide OpStep, Reaches;
    trace := TickRuns();
    var s;
    trace, s := Go(SINGLE, Init(0), trace, TICKING, Drive(0, Finish(Completed(LoopPause))));
    trace, s := Go(SINGLE, Init(0), trace, s, Drive(0, Write(false)));
    trace, s := Go(SINGLE, Init(0), trace, s, Drive(0, Write(true)));
    assert s.drivers == UNCOUNTED.drivers;
  }

  /** An operator has resumed it, and driver 1 is armed with the old count. */
  const UNCOUNTED_ARMED := UNCOUNTED.(row := Some(Row(Active, 0, 0, 2)), slot := Some(1),
                                      drivers := map[0 := Driver(Local(1, 0, 1), false, Gone),
                                                     1 := Driver(Local(0, 0, 2), false, Top)],
                                      hist := UNCOUNTED.hist.(owner := ByDriver(1)))

  lemma ResumedUncounted() returns (trace: seq<Step>)
    ensures TracedOnce(trace, UNCOUNTED_ARMED)
  {
    hide Reaches;
    trace := PausedUncounted();
    var s;
    trace, s := Go(SINGLE, Init(0), trace, UNCOUNTED, Drive(0, Drop));
    trace, s := Go(SINGLE, Init(0), trace, s, ResumeGet(1));
    trace, s := Go(SINGLE, Init(0), trace, s, Proceed(1, true, 0));
    trace, s := Go(SINGLE, Init(0), trace, s, Proceed(1, true, 1));
    assert s.ops == map[] && s.drivers == UNCOUNTED_ARMED.drivers;
  }

  /** So does a lost tick count. */
  lemma LostCountOverspends() returns (trace: seq<Step>, s: State)
    ensures TracedOnce(trace, s) && !s.hist.stale && !s.hist.crashed
    ensures s.hist.lostCounts == 1 && s.hist.fired == SINGLE.maxTicks + 1
  {
    hide Reaches;
    trace := ResumedUncounted();
    trace, s := StartTick(SINGLE, Init(0), trace, UNCOUNTED_ARMED, 1, 2);
  }
}
