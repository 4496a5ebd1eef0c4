/** The supervisor's power management and its exception handler, shared by
    src/lib/firmware.py and src/firmware.py: `sleep(sleep_type, sleep_time)`
    and the body of the `except Exception` clause of `main`. */
module Power {
  import opened JsonValue
  import opened Effects

  /** What a piece of code does: its calls in order and how it ends.
      `Propagated` means it raised. */
  datatype Outcome = Outcome(actions: seq<Action>, end: End)

  /** `o` preceded by the calls `acts`. */
  function After(acts: seq<Action>, o: Outcome): Outcome {
    Outcome(acts + o.actions, o.end)
  }

  lemma AfterAfter(acts: seq<Action>, more: seq<Action>, o: Outcome)
    ensures After(acts, After(more, o)) == After(acts + more, o)
  {
    assert acts + (more + o.actions) == (acts + more) + o.actions;
  }

  /** `sleep(sleep_type, sleep_time)`. Deep sleep formats `sleep_time / 1000`
      first, so a non-number raises; the RTC alarm is armed only for a truthy
      time, and `machine.deepsleep()` never returns. `wait` sleeps
      `sleep_time / 1000` seconds and raises for a non-number. An unknown
      mode does nothing. */
  function Sleep(sleepType: Json, sleepTime: Json): (r: Outcome)
    ensures r.end == Continue || r.end == PoweredDown || r.end == Propagated
    ensures r.end == PoweredDown <==> sleepType == Str("deepsleep") && IsNumber(sleepTime)
    ensures r.end == Propagated <==> (sleepType == Str("deepsleep") || sleepType == Str("wait")) && !IsNumber(sleepTime)
    ensures DeepSleep in r.actions <==> r.end == PoweredDown
    ensures r.end == PoweredDown ==> r.actions[|r.actions| - 1] == DeepSleep
    ensures ArmAlarm(sleepTime) in r.actions <==> r.end == PoweredDown && Truthy(sleepTime)
    ensures |r.actions| <= 2
    ensures forall a :: a in r.actions ==>
              a == ArmAlarm(sleepTime) || a == DeepSleep || a == Idle || a == LightSleep || a == DelayMs(sleepTime)
  {
    if sleepType == Str("deepsleep") then
      if !IsNumber(sleepTime) then Outcome([], Propagated)
      else Outcome((if Truthy(sleepTime) then [ArmAlarm(sleepTime)] else []) + [DeepSleep], PoweredDown)
    else if sleepType == Str("idle") then Outcome([Idle], Continue)
    else if sleepType == Str("sleep") then Outcome([LightSleep], Continue)
    else if sleepType == Str("wait") then
      (if IsNumber(sleepTime) then Outcome([DelayMs(sleepTime)], Continue) else Outcome([], Propagated))
    else Outcome([], Continue)
  }

  /** Deep sleep with a truthy time: the alarm is armed right before the
      device powers down, and nothing else happens. */
  lemma DeepSleepArmsAlarm(sleepTime: Json)
    requires IsNumber(sleepTime) && Truthy(sleepTime)
    ensures Sleep(Str("deepsleep"), sleepTime).actions == [ArmAlarm(sleepTime), DeepSleep]
  {
  }

  /** The two versions of the exception handler. src/lib/firmware.py runs
      the garbage collector before waiting and resets by default;
      src/firmware.py does neither. */
  datatype Handler = Handler(collects: bool, resetDefault: bool)

  const LibHandler := Handler(true, true)
  const LegacyHandler := Handler(false, false)

  /** The `except Exception` clause. With `exception_raise` (default False)
      the exception leaves `main`. Otherwise the handler waits
      `exception_wait` seconds (default 10; a non-number raises), then calls
      `machine.reset()` when `exception_reset` holds and else `sys.exit()`
      when `exception_exit` (default False) holds; with neither the loop goes
      on. */
  function Fault(conf: map<string, Json>, h: Handler): (r: Outcome)
    ensures r.end != PoweredDown
    ensures Truthy(GetOr(conf, "exception_raise", Bool(false))) ==> r == Outcome([], Propagated)
    ensures r.end == Continue || r.end == Restarted || r.end == Exited
            ==> PauseSeconds(GetOr(conf, "exception_wait", Int(10))) in r.actions
    ensures r.end == Restarted <==>
              !Truthy(GetOr(conf, "exception_raise", Bool(false)))
              && IsNumber(GetOr(conf, "exception_wait", Int(10)))
              && Truthy(GetOr(conf, "exception_reset", Bool(h.resetDefault)))
    ensures r.end == Exited ==> !Truthy(GetOr(conf, "exception_reset", Bool(h.resetDefault)))
    ensures (Reset in r.actions <==> r.end == Restarted) && (Exit in r.actions <==> r.end == Exited)
    ensures GcCollect in r.actions <==> h.collects && !Truthy(GetOr(conf, "exception_raise", Bool(false)))
    ensures r.end == Restarted || r.end == Exited ==> |r.actions| > 0 && r.actions[|r.actions| - 1] in {Reset, Exit}
    ensures forall a :: a in r.actions ==>
              a == GcCollect || a == PauseSeconds(GetOr(conf, "exception_wait", Int(10))) || a == Reset || a == Exit
  {
    if Truthy(GetOr(conf, "exception_raise", Bool(false))) then Outcome([], Propagated)
    else
      var gc := if h.collects then [GcCollect] else [];
      var wait := GetOr(conf, "exception_wait", Int(10));
      if !IsNumber(wait) then Outcome(gc, Propagated)
      else if Truthy(GetOr(conf, "exception_reset", Bool(h.resetDefault))) then
        Outcome(gc + [PauseSeconds(wait), Reset], Restarted)
      else if Truthy(GetOr(conf, "exception_exit", Bool(false))) then
        Outcome(gc + [PauseSeconds(wait), Exit], Exited)
      else Outcome(gc + [PauseSeconds(wait)], Continue)
  }

  /** With no `exception_*` keys the two handlers differ: src/lib/firmware.py
      collects, waits ten seconds and resets the board; src/firmware.py waits
      ten seconds and lets the loop go round again. */
  lemma DefaultHandlers(conf: map<string, Json>)
    requires "exception_raise" !in conf && "exception_wait" !in conf
    requires "exception_reset" !in conf && "exception_exit" !in conf
    ensures Fault(conf, LibHandler) == Outcome([GcCollect, PauseSeconds(Int(10)), Reset], Restarted)
    ensures Fault(conf, LegacyHandler) == Outcome([PauseSeconds(Int(10))], Continue)
  {
  }
}
