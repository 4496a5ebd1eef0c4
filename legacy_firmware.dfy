/** The supervisor `main` of src/firmware.py. Each pass of `while True`
    connects the shared client with `clean_session=False`, builds the device
    registry if it is empty (every device receives that client), always
    publishes the health report, collects garbage and sleeps; it never
    disconnects, not even before deep sleep. Its exception handler neither
    collects garbage nor, by default, resets. The handler's
    `type(e) != 'KeyboardInterrupt'` compares a type with a string and so
    always holds; `except Exception` does not catch a keyboard interrupt in
    the first place. */
module LegacyFirmware {
  import opened JsonValue
  import opened Effects
  import opened Power
  import opened Registry

  /** `mqtt.connect(clean_session=False)` */
  const Reconnect: Action := Connect(Bool(false))

  /** The `try` block of one pass, given how its phases go: the connect,
      the registry phase `init`, the health record `m`, the publish and the
      sleep `z`. */
  function TryBlock(connectOk: bool, publishOk: bool, init: InitResult, m: Option<Message>, z: Outcome): Outcome {
    if !connectOk then Outcome([Reconnect], Propagated)
    else
      var pre := [Reconnect] + init.actions;
      if init.raised || m.None? then Outcome(pre, Propagated)
      else if !publishOk then Outcome(pre + [Publish(m.value)], Propagated)
      else Outcome(pre + [Publish(m.value), GcCollect] + z.actions, z.end)
  }

  /** The `try` block of one pass, from registry `reg`. */
  function Body(conf: map<string, Json>, machineId: string, reg: seq<string>, env: CycleEnv): Step {
    var init := InitPhase(conf, reg, env, false);
    Step(if env.connectOk then init.devices else reg,
         TryBlock(env.connectOk, env.publishOk, init, HealthMessage(conf, machineId, env.stats),
                  Sleep(GetOr(conf, "sleep_type", Str("wait")), GetOr(conf, "sleep_time", Int(60000)))))
  }

  /** A call that none of the phases makes is not made by the `try` block;
      the block always starts by reconnecting. */
  lemma TryBlockExcludes(connectOk: bool, publishOk: bool, init: InitResult, m: Option<Message>, z: Outcome, x: Action)
    requires x != Reconnect && x !in init.actions && !x.Publish? && x != GcCollect && x !in z.actions
    ensures var t := TryBlock(connectOk, publishOk, init, m, z).actions;
            |t| > 0 && t[0] == Reconnect && x !in t
  {
  }

  /** Only a `try` block that reaches `sleep` can power down. */
  lemma TryBlockSleeps(connectOk: bool, publishOk: bool, init: InitResult, m: Option<Message>, z: Outcome)
    requires DeepSleep !in init.actions
    ensures var t := TryBlock(connectOk, publishOk, init, m, z);
            DeepSleep in t.actions ==> DeepSleep in z.actions && t.end == z.end
  {
  }

  /** Every call of the `try` block comes from one of its phases. */
  lemma TryBlockMember(connectOk: bool, publishOk: bool, init: InitResult, m: Option<Message>, z: Outcome, a: Action)
    requires a in TryBlock(connectOk, publishOk, init, m, z).actions
    ensures a == Reconnect || a in init.actions || a.Publish? || a == GcCollect || a in z.actions
  {
  }

  /** One pass of `while True`, the exception handler included. */
  function Cycle(conf: map<string, Json>, machineId: string, reg: seq<string>, env: CycleEnv): Step {
    Settle(conf, LegacyHandler, Body(conf, machineId, reg, env))
  }

  function Cycles(conf: map<string, Json>, machineId: string): (seq<string>, CycleEnv) -> Step {
    (reg: seq<string>, env: CycleEnv) => Cycle(conf, machineId, reg, env)
  }

  /** `main()`: None from `ServerOf` raises before the loop. */
  function Run(conf: map<string, Json>, machineId: string, envs: seq<CycleEnv>): Outcome {
    if ServerOf(conf).None? then Outcome([], Propagated)
    else Loop(Cycles(conf, machineId), [], envs)
  }

  /** The state `main` keeps across passes: the `devices` dict (its keys in
      insertion order) and the calls made so far. */
  class Supervisor {
    const config: map<string, Json>
    const machineId: string
    var devices: seq<string>
    var trace: seq<Action>

    constructor (config: map<string, Json>, machineId: string)
      ensures this.config == config && this.machineId == machineId
      ensures devices == [] && trace == []
    {
      this.config := config;
      this.machineId := machineId;
      devices := [];
      trace := [];
    }

    /** One pass of the loop body, its exception handler included. */
    method Pass(env: CycleEnv) returns (end: End)
      requires OrderFits(config, env.order)
      modifies this
      ensures var s := Cycle(config, machineId, old(devices), env);
              devices == s.devices && trace == old(trace) + s.out.actions && end == s.out.end
    {
      var body := Outcome([Reconnect], Propagated);
      if env.connectOk {
        var init := InitRegistry(config, devices, env, false);
        devices := init.devices;
        var m := HealthMessage(config, machineId, env.stats);
        if init.raised || m.None? {
          body := Outcome([Reconnect] + init.actions, Propagated);
        } else if !env.publishOk {
          body := Outcome([Reconnect] + init.actions + [Publish(m.value)], Propagated);
        } else {
          var z := Sleep(GetOr(config, "sleep_type", Str("wait")), GetOr(config, "sleep_time", Int(60000)));
          body := Outcome([Reconnect] + init.actions + [Publish(m.value), GcCollect] + z.actions, z.end);
        }
      }
      if body.end == Propagated {
        var f := Fault(config, LegacyHandler);
        body := Outcome(body.actions + f.actions, f.end);
      }
      trace := trace + body.actions;
      end := body.end;
    }
  }

  /** `main()`, over the passes `envs` of the endless loop. */
  method Supervise(config: map<string, Json>, machineId: string, envs: seq<CycleEnv>) returns (trace: seq<Action>, end: End)
    requires forall i :: 0 <= i < |envs| ==> OrderFits(config, envs[i].order)
    ensures Outcome(trace, end) == Run(config, machineId, envs)
  {
    if ServerOf(config).None? {
      return [], Propagated;
    }
    var s := new Supervisor(config, machineId);
    var i := 0;
    end := Continue;
    ghost var f := Cycles(config, machineId);
    while i < |envs| && end == Continue
      invariant 0 <= i <= |envs|
      invariant s.config == config && s.machineId == machineId
      invariant end == Continue ==> Loop(f, [], envs) == After(s.trace, Loop(f, s.devices, envs[i..]))
      invariant end != Continue ==> Loop(f, [], envs) == Outcome(s.trace, end)
    {
      LoopStep(f, envs, i, s.devices, s.trace);
      end := s.Pass(envs[i]);
      i := i + 1;
    }
    if end == Continue {
      assert envs[i..] == [];
    }
    trace := s.trace;
  }

  /** Every pass starts by reconnecting, and no pass ever disconnects. */
  lemma ReconnectsNeverDisconnects(conf: map<string, Json>, machineId: string, reg: seq<string>, env: CycleEnv)
    ensures var t := Cycle(conf, machineId, reg, env).out.actions;
            |t| > 0 && t[0] == Reconnect && Disconnect !in t
  {
    var init := InitPhase(conf, reg, env, false);
    var m := HealthMessage(conf, machineId, env.stats);
    var z := Sleep(GetOr(conf, "sleep_type", Str("wait")), GetOr(conf, "sleep_time", Int(60000)));
    TryBlockExcludes(env.connectOk, env.publishOk, init, m, z, Disconnect);
    var b := Body(conf, machineId, reg, env).out;
    var f := Fault(conf, LegacyHandler);
    assert Disconnect !in f.actions;
    if b.end == Propagated {
      assert Cycle(conf, machineId, reg, env).out.actions == b.actions + f.actions;
    }
  }

  /** Once the registry holds a device it is never rebuilt. */
  lemma RegistryFrozen(conf: map<string, Json>, machineId: string, reg: seq<string>, env: CycleEnv)
    requires reg != []
    ensures Cycle(conf, machineId, reg, env).devices == reg
    ensures forall a :: a in Cycle(conf, machineId, reg, env).out.actions ==> !a.InitDevice?
  {
    forall a | a in Cycle(conf, machineId, reg, env).out.actions
      ensures !a.InitDevice?
    {
      CycleMember(conf, machineId, reg, env, a);
      if a in Body(conf, machineId, reg, env).out.actions {
        BodyBuildsNothing(conf, machineId, reg, env, a);
      }
    }
  }

  /** Every call of a pass comes from its `try` block or its exception
      handler. */
  lemma CycleMember(conf: map<string, Json>, machineId: string, reg: seq<string>, env: CycleEnv, a: Action)
    requires a in Cycle(conf, machineId, reg, env).out.actions
    ensures a in Body(conf, machineId, reg, env).out.actions || a in Fault(conf, LegacyHandler).actions
  {
  }

  /** A `try` block that finds the registry built constructs nothing. */
  lemma BodyBuildsNothing(conf: map<string, Json>, machineId: string, reg: seq<string>, env: CycleEnv, a: Action)
    requires reg != [] && a in Body(conf, machineId, reg, env).out.actions
    ensures !a.InitDevice?
  {
    var init := InitPhase(conf, reg, env, false);
    var z := Sleep(GetOr(conf, "sleep_type", Str("wait")), GetOr(conf, "sleep_time", Int(60000)));
    TryBlockMember(env.connectOk, env.publishOk, init, HealthMessage(conf, machineId, env.stats), z, a);
  }

  /** A pass that powers down has published the health report and collected
      garbage first, and holds the client's connection open. */
  lemma DeepSleepAfterHealth(conf: map<string, Json>, machineId: string, reg: seq<string>, env: CycleEnv)
    requires Cycle(conf, machineId, reg, env).out.end == PoweredDown
    ensures var t := Cycle(conf, machineId, reg, env).out.actions;
            var m := HealthMessage(conf, machineId, env.stats);
            m.Some? && Publish(m.value) in t && GcCollect in t && Disconnect !in t
  {
    PoweredDownPass(conf, machineId, reg, env);
    ReconnectsNeverDisconnects(conf, machineId, reg, env);
    var m := HealthMessage(conf, machineId, env.stats);
    var pre := [Reconnect] + InitPhase(conf, reg, env, false).actions + [Publish(m.value), GcCollect];
    assert pre[|pre| - 2] == Publish(m.value) && pre[|pre| - 1] == GcCollect;
  }

  /** A pass that powers down ran its whole `try` block. */
  lemma PoweredDownPass(conf: map<string, Json>, machineId: string, reg: seq<string>, env: CycleEnv)
    requires Cycle(conf, machineId, reg, env).out.end == PoweredDown
    ensures var init := InitPhase(conf, reg, env, false);
            var m := HealthMessage(conf, machineId, env.stats);
            var z := Sleep(GetOr(conf, "sleep_type", Str("wait")), GetOr(conf, "sleep_time", Int(60000)));
            !init.raised && m.Some? && z.end == PoweredDown
            && Cycle(conf, machineId, reg, env).out.actions
               == ([Reconnect] + init.actions + [Publish(m.value), GcCollect]) + z.actions
  {
    assert Body(conf, machineId, reg, env).out.end == PoweredDown;
  }

  /** A pass that powers down sleeps once, as its last call. */
  lemma PowersDownOnce(conf: map<string, Json>, machineId: string, reg: seq<string>, env: CycleEnv)
    requires Cycle(conf, machineId, reg, env).out.end == PoweredDown
    ensures var t := Cycle(conf, machineId, reg, env).out.actions;
            Count(t, DeepSleep) == 1 && t[|t| - 1] == DeepSleep
  {
    PoweredDownPass(conf, machineId, reg, env);
    var init := InitPhase(conf, reg, env, false);
    var m := HealthMessage(conf, machineId, env.stats);
    var z := Sleep(GetOr(conf, "sleep_type", Str("wait")), GetOr(conf, "sleep_time", Int(60000)));
    var pre := [Reconnect] + init.actions + [Publish(m.value), GcCollect];
    assert DeepSleep !in init.actions;
    assert DeepSleep !in pre;
    SleepsLast(pre, GetOr(conf, "sleep_type", Str("wait")), GetOr(conf, "sleep_time", Int(60000)));
  }

  lemma CyclePowersDownLast(conf: map<string, Json>, machineId: string, reg: seq<string>, env: CycleEnv)
    ensures PowersDownLast(Cycle(conf, machineId, reg, env).out)
  {
    var init := InitPhase(conf, reg, env, false);
    var m := HealthMessage(conf, machineId, env.stats);
    var z := Sleep(GetOr(conf, "sleep_type", Str("wait")), GetOr(conf, "sleep_time", Int(60000)));
    assert DeepSleep !in init.actions;
    TryBlockSleeps(env.connectOk, env.publishOk, init, m, z);
    var b := Body(conf, machineId, reg, env).out;
    var f := Fault(conf, LegacyHandler);
    assert DeepSleep !in f.actions;
    if b.end == Propagated {
      assert Cycle(conf, machineId, reg, env).out.actions == b.actions + f.actions;
    }
    if b.end == PoweredDown {
      PowersDownOnce(conf, machineId, reg, env);
    }
  }

  /** The whole loop never does anything after `machine.deepsleep()`. */
  lemma RunPowersDownLast(conf: map<string, Json>, machineId: string, envs: seq<CycleEnv>)
    ensures PowersDownLast(Run(conf, machineId, envs))
  {
    forall r, e ensures PowersDownLast(Cycles(conf, machineId)(r, e).out) {
      CyclePowersDownLast(conf, machineId, r, e);
    }
    if ServerOf(conf).Some? {
      LoopPowersDownLast(Cycles(conf, machineId), [], envs);
    }
  }
}
