/** The timer's time, told without the functions that move it. */
module TimerLaws {
  import opened Basics
  import opened Records
  import opened Engine
  import opened Frames
  import opened SessionLaws
  import opened RecoveryLaws
  import opened TransitionLaws
  import opened WarningRuns

  // ----- one tick

  /** The timer runs off during a tick exactly if it is running, the engine is not suspended, and, where
      only play counts, a game is on. Then the monotonic time since the last tick is gone, down to zero, at
      which it has expired. Otherwise the timer is as it was. */
  lemma TickTimerExact(w: World, r: Reading)
    ensures var left := MaxReal(0.0, w.timer.remaining - MaxReal(0.0, r.mono - w.lastMono));
            Tick(w, r).world.timer ==
            if w.timer.state == Running && !w.suspended && (!w.cfg.countOnlyWhilePlaying || w.game.Some?)
            then w.timer.(remaining := left, state := if left == 0.0 then Expired else Running)
            else w.timer
  {
    TickTimerFrame(w, r);
    RunsTimerExact(w, Tick(w, r).world, MonoDelta(w, r), r.mono);
  }

  lemma RunsTimerExact(w: World, v: World, elapsed: real, mono: real)
    requires RunsTimer(w, v, elapsed, mono)
    ensures var left := MaxReal(0.0, w.timer.remaining - elapsed);
            v.timer ==
            if w.timer.state == Running && !w.suspended && (!w.cfg.countOnlyWhilePlaying || w.game.Some?)
            then w.timer.(remaining := left, state := if left == 0.0 then Expired else Running)
            else w.timer
  { }

  // ----- runs

  /** The monotonic time by which an input runs the timer off: none unless it ticks while the timer runs,
      the engine is not suspended, and, where only play counts, a game is on. */
  function Spends(w: World, c: Command, r: Reading): real {
    if TicksFirst(c) && w.timer.state == Running && !w.suspended && (!w.cfg.countOnlyWhilePlaying || w.game.Some?)
    then MaxReal(0.0, r.mono - w.lastMono) else 0.0
  }

  function Spent(w: World, run: seq<Input>): real {
    if run == [] then 0.0
    else
      var prefix, last := run[..|run| - 1], run[|run| - 1];
      Spent(w, prefix) + Spends(After(w, prefix), last.command, last.at)
  }

  /** The command neither replaces the timer nor adjusts it, nor restarts the daemon; one that does not
      complete is always like this. */
  ghost predicate LeavesTime(t: World, c: Command, r: Reading) {
    Proper(t, c, r).Done? ==> !c.DoStartTimer? && !c.DoCancelTimer? && !c.DoAdjustTimer? && !c.DoRestart?
  }

  lemma ProperLeavesTime(t: World, c: Command, r: Reading)
    requires Linked(t) && LeavesTime(t, c, r)
    ensures Proper(t, c, r).world.timer.remaining == t.timer.remaining
    ensures Proper(t, c, r).world.timer.generation == t.timer.generation
  {
    if !Proper(t, c, r).Done? {
      RefusedProper(t, c, r);
    } else if SilentTail(c) {
      SilentTailFrame(t, c, r);
    } else if c.DoGrant? {
      AnnounceFrame(ApplyGrant(t, c.seconds, r.now), r.now, TakeSnapshot(t, r.now));
    } else if c.DoUpdateConfig? {
      SwitchConfigFrame(t, c.config, r);
      UpdateConfigTailFrame(t, c.config, r);
    } else {
      ResumeFrame(t, r);
    }
  }

  ghost predicate RunLeavesTime(w: World, run: seq<Input>) {
    run == [] ||
    var prefix, last := run[..|run| - 1], run[|run| - 1];
    && RunLeavesTime(w, prefix)
    && LeavesTime(Ticked(After(w, prefix), last.command, last.at).world, last.command, last.at)
  }

  lemma TickSpends(w: World, r: Reading)
    requires TimerOk(w.timer)
    ensures var v := Tick(w, r).world;
            && v.timer.generation == w.timer.generation
            && v.timer.remaining == MaxReal(0.0, w.timer.remaining - Spends(w, DoTick, r))
  {
    TickTimerExact(w, r);
  }

  /** The tick that an input may start with does all of the spending. */
  lemma TickedSpends(w: World, c: Command, r: Reading)
    requires Ready(w)
    ensures var t := Ticked(w, c, r).world;
            && Ready(t) && t.timer.generation == w.timer.generation
            && t.timer.remaining == MaxReal(0.0, w.timer.remaining - Spends(w, c, r))
  {
    TickSpends(w, r);
    TickReady(w, r);
    assert TicksFirst(c) ==> Spends(w, c, r) == Spends(w, DoTick, r);
  }

  lemma StepSpends(w: World, c: Command, r: Reading)
    requires Ready(w) && ValidCommand(c) && LeavesTime(Ticked(w, c, r).world, c, r)
    ensures var v := Step(w, c, r).world;
            && Ready(v) && v.timer.generation == w.timer.generation
            && v.timer.remaining == MaxReal(0.0, w.timer.remaining - Spends(w, c, r))
  {
    StepReady(w, c, r);
    StepInTwo(w, c, r, OfTimer(0));
    TickedSpends(w, c, r);
    ProperLeavesTime(Ticked(w, c, r).world, c, r);
  }

  lemma SpentTwice(whole: real, a: real, b: real)
    requires 0.0 <= a && 0.0 <= b
    ensures MaxReal(0.0, MaxReal(0.0, whole - a) - b) == MaxReal(0.0, whole - (a + b))
  { }

  /** From `w` to `v` the timer has run off by `seconds`. */
  ghost predicate RunOff(w: World, v: World, seconds: real) {
    && Ready(v) && 0.0 <= seconds && v.timer.generation == w.timer.generation
    && v.timer.remaining == MaxReal(0.0, w.timer.remaining - seconds)
  }

  lemma RunOffFurther(w: World, u: World, seconds: real, c: Command, r: Reading)
    requires RunOff(w, u, seconds) && ValidCommand(c) && LeavesTime(Ticked(u, c, r).world, c, r)
    ensures RunOff(w, Step(u, c, r).world, seconds + Spends(u, c, r))
  {
    StepSpends(u, c, r);
    SpentTwice(w.timer.remaining, seconds, Spends(u, c, r));
  }

  lemma RunOffBy(w: World, run: seq<Input>)
    requires run != []
    requires var prefix, last := run[..|run| - 1], run[|run| - 1];
             && RunOff(w, After(w, prefix), Spent(w, prefix)) && ValidCommand(last.command)
             && LeavesTime(Ticked(After(w, prefix), last.command, last.at).world, last.command, last.at)
    ensures RunOff(w, After(w, run), Spent(w, run))
  {
    var prefix, last := run[..|run| - 1], run[|run| - 1];
    var u, seconds := After(w, prefix), Spent(w, prefix);
    RunOffFurther(w, u, seconds, last.command, last.at);
    assert After(w, run) == Step(u, last.command, last.at).world;
    assert Spent(w, run) == seconds + Spends(u, last.command, last.at);
  }

  /** Over any run that does not replace or adjust the timer, whatever starts, stops, pauses or suspends in
      between, its time falls by exactly what was spent, down to zero. */
  lemma {:induction false} TimerRunExact(w: World, run: seq<Input>)
    requires Ready(w) && ValidRun(run) && RunLeavesTime(w, run)
    ensures RunOff(w, After(w, run), Spent(w, run))
  {
    if run != [] {
      var prefix := run[..|run| - 1];
      assert forall i :: 0 <= i < |prefix| ==> prefix[i] == run[i];
      TimerRunExact(w, prefix);
      RunOffBy(w, run);
    }
  }

  // ----- commands

  /** Adjusting moves the time within zero and a day. What ends at zero has expired, what leaves zero again
      is paused, and anything else goes on as it was; the stored copy is the same. */
  lemma AdjustExact(t: World, seconds: int, r: Reading)
    requires TimerOk(t.timer)
    ensures var v := AdjustTimerTail(t, seconds, r);
            && (v.Done? <==> t.timer.state != Idle && seconds != 0 && -86400 <= seconds <= 86400)
            && (v.Done? ==>
                  var moved := t.timer.remaining + seconds as real;
                  var left := if moved < 0.0 then 0.0 else if 86400.0 < moved then 86400.0 else moved;
                  && v.world.timer == t.timer.(remaining := left,
                                               state := if left == 0.0 then Expired
                                                        else if t.timer.remaining == 0.0 then Paused
                                                        else t.timer.state)
                  && v.world.db.timer == Some(v.world.timer))
  {
    ApplyAdjustmentOnlyTimer(t, seconds, r.now);
    AnnounceFrame(ApplyAdjustment(t, seconds, r.now), r.now, TakeSnapshot(t, r.now));
  }

  /** Which timer commands complete, and what they leave, in memory and in storage. */
  lemma TimerCommandsExact(t: World, seconds: int, action: string, r: Reading)
    requires TimerOk(t.timer)
    ensures StartTimerTail(t, seconds, action).Done? <==>
            && t.level <= 0 && 60 <= seconds <= 86400
            && (action == "inherit" || action == "notify_only" || action == "soft" || action == "close"
                || action == "block")
    ensures var v := PauseTimerTail(t);
            if t.timer.state == Running
            then v.Done? && v.world.timer == t.timer.(state := Paused) && v.world.db.timer == Some(v.world.timer)
            else v.Refused? && v.world == t
    ensures var v := ResumeTimerTail(t);
            if t.timer.state == Paused && t.level <= 0
            then v.Done? && v.world.timer == t.timer.(state := Running) && v.world.db.timer == Some(v.world.timer)
            else v.Refused? && v.world == t
    ensures var v := CancelTimerTail(t, r);
            && v.Done? && v.world.timer == Timer(Idle, 0, 0.0, "inherit", None)
            && (t.timer.state != Idle ==> v.world.db.timer == Some(v.world.timer))
  { }
}
