/** The supervisor `main` of src/lib/firmware.py. Before the loop it reads
    the broker address; each pass of `while True` then builds the device
    registry if it is empty (forcing `oneshot` under deep sleep and handing
    every device the broker address as `(server,)`), publishes a health
    report when `publish_health` holds, disconnects, collects garbage unless
    it is about to deep-sleep, and sleeps. Whatever raises in the pass goes
    to the exception handler. */
module Firmware {
  import opened JsonValue
  import opened Effects
  import opened Power
  import opened Registry
  import Endpoint

  /** `conf.config.get('sleep_type', 'wait') == 'deepsleep'` */
  predicate DeepSleeps(conf: map<string, Json>) {
    GetOr(conf, "sleep_type", Str("wait")) == Str("deepsleep")
  }

  /** The health report: connect with `clean_session` from the publish
      section (default True), then publish the health record. Skipped
      entirely when `publish_health` (default True) is falsy. */
  function Health(conf: map<string, Json>, machineId: string, env: CycleEnv): (r: Outcome)
    ensures r.end == Continue || r.end == Propagated
    ensures !Truthy(GetOr(conf, "publish_health", Bool(true))) ==> r == Outcome([], Continue)
    ensures Truthy(GetOr(conf, "publish_health", Bool(true))) ==>
              |r.actions| > 0 && r.actions[0] == Connect(GetOr(PublishSection(conf), "clean_session", Bool(true)))
    ensures r.end == Continue && Truthy(GetOr(conf, "publish_health", Bool(true))) ==>
              HealthMessage(conf, machineId, env.stats).Some?
              && r.actions[|r.actions| - 1] == Publish(HealthMessage(conf, machineId, env.stats).value)
    ensures forall a :: a in r.actions ==> a.Connect? || a.Publish?
  {
    if !Truthy(GetOr(conf, "publish_health", Bool(true))) then Outcome([], Continue)
    else
      var c := Connect(GetOr(PublishSection(conf), "clean_session", Bool(true)));
      var m := HealthMessage(conf, machineId, env.stats);
      if !env.connectOk || m.None? then Outcome([c], Propagated)
      else Outcome([c, Publish(m.value)], if env.publishOk then Continue else Propagated)
  }

  /** The `try` block of one pass, given how its phases go: the registry
      phase `init`, the health report, the disconnect and the sleep `z`;
      the garbage collector is skipped under deep sleep. */
  function TryBlock(disconnectOk: bool, deep: bool, init: InitResult, health: Outcome, z: Outcome): Outcome {
    if init.raised then Outcome(init.actions, Propagated)
    else
      var pre := init.actions + health.actions;
      if health.end == Propagated then Outcome(pre, Propagated)
      else if !disconnectOk then Outcome(pre + [Disconnect], Propagated)
      else Outcome(pre + [Disconnect] + (if deep then [] else [GcCollect]) + z.actions, z.end)
  }

  /** The `try` block of one pass, from registry `reg`. */
  function Body(conf: map<string, Json>, machineId: string, reg: seq<string>, env: CycleEnv): Step {
    var init := InitPhase(conf, reg, env, DeepSleeps(conf));
    Step(init.devices,
         TryBlock(env.disconnectOk, DeepSleeps(conf), init, Health(conf, machineId, env),
                  Sleep(GetOr(conf, "sleep_type", Str("wait")), GetOr(conf, "sleep_time", Int(60000)))))
  }

  /** Only a `try` block that reaches `sleep` can power down. */
  lemma TryBlockSleeps(disconnectOk: bool, deep: bool, init: InitResult, health: Outcome, z: Outcome)
    requires DeepSleep !in init.actions && DeepSleep !in health.actions
    ensures var t := TryBlock(disconnectOk, deep, init, health, z);
            DeepSleep in t.actions ==> DeepSleep in z.actions && t.end == z.end
  {
  }

  /** Every call of the `try` block comes from one of its phases. */
  lemma TryBlockMember(disconnectOk: bool, deep: bool, init: InitResult, health: Outcome, z: Outcome, a: Action)
    requires a in TryBlock(disconnectOk, deep, init, health, z).actions
    ensures a in init.actions || a in health.actions || a == Disconnect || a == GcCollect || a in z.actions
  {
  }

  /** Every call of a pass comes from its `try` block or its exception
      handler. */
  lemma CycleMember(conf: map<string, Json>, machineId: string, reg: seq<string>, env: CycleEnv, a: Action)
    requires a in Cycle(conf, machineId, reg, env).out.actions
    ensures a in Body(conf, machineId, reg, env).out.actions || a in Fault(conf, LibHandler).actions
  {
  }

  /** Every call of the `try` block comes from one of its phases. */
  lemma BodyMember(conf: map<string, Json>, machineId: string, reg: seq<string>, env: CycleEnv, a: Action)
    requires a in Body(conf, machineId, reg, env).out.actions
    ensures a in InitPhase(conf, reg, env, DeepSleeps(conf)).actions || a in Health(conf, machineId, env).actions
            || a == Disconnect || a == GcCollect
            || a in Sleep(GetOr(conf, "sleep_type", Str("wait")), GetOr(conf, "sleep_time", Int(60000))).actions
  {
    TryBlockMember(env.disconnectOk, DeepSleeps(conf), InitPhase(conf, reg, env, DeepSleeps(conf)),
                   Health(conf, machineId, env),
                   Sleep(GetOr(conf, "sleep_type", Str("wait")), GetOr(conf, "sleep_time", Int(60000))), a);
  }

  /** One pass of `while True`, the exception handler included. */
  function Cycle(conf: map<string, Json>, machineId: string, reg: seq<string>, env: CycleEnv): Step {
    Settle(conf, LibHandler, Body(conf, machineId, reg, env))
  }

  function Cycles(conf: map<string, Json>, machineId: string): (seq<string>, CycleEnv) -> Step {
    (reg: seq<string>, env: CycleEnv) => Cycle(conf, machineId, reg, env)
  }

  /** `main()`: None from `ServerOf` raises before the loop. */
  function Run(conf: map<string, Json>, machineId: string, envs: seq<CycleEnv>): Outcome {
    if ServerOf(conf).None? then Outcome([], Propagated)
    else Loop(Cycles(conf, machineId), [], envs)
  }

  /** The state `main` keeps across passes: the `devices` dict (its keys in
      insertion order) and, in place of the hardware and the broker, the
      calls made so far. */
  class Supervisor {
    const config: map<string, Json>
    const machineId: string
    var devices: seq<string>
    var trace: seq<Action>

    constructor (config: map<string, Json>, machineId: string)
      ensures this.config == config && this.machineId == machineId
      ensures devices == [] && trace == []
    {
      this.config := config;
      this.machineId := machineId;
      devices := [];
      trace := [];
    }

    /** One pass of the loop body, its exception handler included. */
    method Pass(env: CycleEnv) returns (end: End)
      requires OrderFits(config, env.order)
      modifies this
      ensures var s := Cycle(config, machineId, old(devices), env);
              devices == s.devices && trace == old(trace) + s.out.actions && end == s.out.end
    {
      var deep := DeepSleeps(config);
      var body := Outcome([], Continue);
      var init := InitRegistry(config, devices, env, deep);
      ghost var try := TryBlock(env.disconnectOk, deep, init, Health(config, machineId, env),
                                Sleep(GetOr(config, "sleep_type", Str("wait")), GetOr(config, "sleep_time", Int(60000))));
      if init.raised {
        body := Outcome(init.actions, Propagated);
      } else {
        var health := Health(config, machineId, env);
        if health.end == Propagated {
          body := Outcome(init.actions + health.actions, Propagated);
        } else if !env.disconnectOk {
          body := Outcome(init.actions + health.actions + [Disconnect], Propagated);
        } else {
          var gc := if deep then [] else [GcCollect];
          var z := Sleep(GetOr(config, "sleep_type", Str("wait")), GetOr(config, "sleep_time", Int(60000)));
          body := Outcome(init.actions + health.actions + [Disconnect] + gc + z.actions, z.end);
        }
      }
      assert body == try;
      if body.end == Propagated {
        var f := Fault(config, LibHandler);
        body := Outcome(body.actions + f.actions, f.end);
      }
      devices := init.devices;
      trace := trace + body.actions;
      end := body.end;
    }
  }

  /** `main()`, over the passes `envs` of the endless loop: it stops at the
      first pass that does not go round again. */
  method Supervise(config: map<string, Json>, machineId: string, envs: seq<CycleEnv>) returns (trace: seq<Action>, end: End)
    requires forall i :: 0 <= i < |envs| ==> OrderFits(config, envs[i].order)
    ensures Outcome(trace, end) == Run(config, machineId, envs)
  {
    if ServerOf(config).None? {
      return [], Propagated;
    }
    var s := new Supervisor(config, machineId);
    var i := 0;
    end := Continue;
    ghost var f := Cycles(config, machineId);
    while i < |envs| && end == Continue
      invariant 0 <= i <= |envs|
      invariant s.config == config && s.machineId == machineId
      invariant end == Continue ==> Loop(f, [], envs) == After(s.trace, Loop(f, s.devices, envs[i..]))
      invariant end != Continue ==> Loop(f, [], envs) == Outcome(s.trace, end)
    {
      LoopStep(f, envs, i, s.devices, s.trace);
      end := s.Pass(envs[i]);
      i := i + 1;
    }
    if end == Continue {
      assert envs[i..] == [];
    }
    trace := s.trace;
  }

  /** A pass that powers down ran its whole `try` block under deep sleep. */
  lemma PoweredDownPass(conf: map<string, Json>, machineId: string, reg: seq<string>, env: CycleEnv)
    requires Cycle(conf, machineId, reg, env).out.end == PoweredDown
    ensures DeepSleeps(conf)
    ensures var init := InitPhase(conf, reg, env, true);
            var z := Sleep(Str("deepsleep"), GetOr(conf, "sleep_time", Int(60000)));
            !init.raised && z.end == PoweredDown
            && Cycle(conf, machineId, reg, env).out.actions
               == init.actions + Health(conf, machineId, env).actions + [Disconnect] + z.actions
  {
    assert Body(conf, machineId, reg, env).out.end == PoweredDown;
  }

  /** Once the registry holds a device it is never rebuilt: a pass neither
      changes it nor constructs anything. A registry left partial by a
      failing constructor therefore stays partial. */
  lemma RegistryFrozen(conf: map<string, Json>, machineId: string, reg: seq<string>, env: CycleEnv)
    requires reg != []
    ensures Cycle(conf, machineId, reg, env).devices == reg
    ensures forall a :: a in Cycle(conf, machineId, reg, env).out.actions ==> !a.InitDevice?
  {
    forall a | a in Cycle(conf, machineId, reg, env).out.actions
      ensures !a.InitDevice?
    {
      CycleMember(conf, machineId, reg, env, a);
      if a in Body(conf, machineId, reg, env).out.actions {
        BodyBuildsNothing(conf, machineId, reg, env, a);
      }
    }
  }

  /** A `try` block that finds the registry built constructs nothing. */
  lemma BodyBuildsNothing(conf: map<string, Json>, machineId: string, reg: seq<string>, env: CycleEnv, a: Action)
    requires reg != [] && a in Body(conf, machineId, reg, env).out.actions
    ensures !a.InitDevice?
  {
    BodyMember(conf, machineId, reg, env, a);
  }

  /** From an empty registry, every device the pass registers was listed and
      constructed, none twice; when every entry is a dict and every
      constructor returns, all of them are registered. */
  lemma RegistryFromEmpty(conf: map<string, Json>, machineId: string, env: CycleEnv)
    requires OrderFits(conf, env.order) && DeviceSection(conf).Obj?
    ensures var s := Cycle(conf, machineId, [], env);
            var devs := DeviceSection(conf).fields;
            Distinct(s.devices)
            && (forall n :: n in s.devices ==> n in devs && env.constructs(n))
            && ((forall n :: n in devs ==> devs[n].Obj? && env.constructs(n)) ==> forall n :: n in devs ==> n in s.devices)
  {
    InitsRegistered(DeviceSection(conf).fields, env.order, [], DeepSleeps(conf), env.constructs);
    InitsCovers(DeviceSection(conf).fields, env.order, [], DeepSleeps(conf), env.constructs);
  }

  /** The actions of a pass that powers down end with the disconnect, at
      most the alarm, and the deep sleep; the garbage collector is not run. */
  lemma DeepSleepDisconnectsFirst(conf: map<string, Json>, machineId: string, reg: seq<string>, env: CycleEnv)
    requires Cycle(conf, machineId, reg, env).out.end == PoweredDown
    ensures var t := Cycle(conf, machineId, reg, env).out.actions;
            |t| >= 2 && t[|t| - 1] == DeepSleep
            && (t[|t| - 2] == Disconnect
                || (|t| >= 3 && t[|t| - 2] == ArmAlarm(GetOr(conf, "sleep_time", Int(60000))) && t[|t| - 3] == Disconnect))
            && GcCollect !in t
  {
    var init := InitPhase(conf, reg, env, DeepSleeps(conf));
    var health := Health(conf, machineId, env);
    assert GcCollect !in init.actions && GcCollect !in health.actions;
    assert Body(conf, machineId, reg, env).out.end == PoweredDown;
    TryBlockDeepTail(env.disconnectOk, DeepSleeps(conf), init, health,
                     GetOr(conf, "sleep_type", Str("wait")), GetOr(conf, "sleep_time", Int(60000)));
  }

  /** A `try` block that powers down has run under deep sleep and ends with
      the disconnect and the sleep, without collecting garbage. */
  lemma TryBlockDeepTail(disconnectOk: bool, deep: bool, init: InitResult, health: Outcome, sleepType: Json, sleepTime: Json)
    requires TryBlock(disconnectOk, deep, init, health, Sleep(sleepType, sleepTime)).end == PoweredDown
    requires deep <==> sleepType == Str("deepsleep")
    requires GcCollect !in init.actions && GcCollect !in health.actions
    ensures var t := TryBlock(disconnectOk, deep, init, health, Sleep(sleepType, sleepTime)).actions;
            |t| >= 2 && t[|t| - 1] == DeepSleep
            && (t[|t| - 2] == Disconnect
                || (|t| >= 3 && t[|t| - 2] == ArmAlarm(sleepTime) && t[|t| - 3] == Disconnect))
            && GcCollect !in t
  {
    assert TryBlock(disconnectOk, deep, init, health, Sleep(sleepType, sleepTime)).actions
        == init.actions + health.actions + [Disconnect] + Sleep(Str("deepsleep"), sleepTime).actions;
    DisconnectThenSleep(init.actions + health.actions, sleepTime);
  }

  /** The tail of a pass that deep-sleeps: the disconnect, the alarm when
      the time is truthy, the deep sleep. */
  lemma DisconnectThenSleep(pre: seq<Action>, sleepTime: Json)
    requires GcCollect !in pre && IsNumber(sleepTime)
    ensures var t := pre + [Disconnect] + Sleep(Str("deepsleep"), sleepTime).actions;
            |t| >= 2 && t[|t| - 1] == DeepSleep
            && (t[|t| - 2] == Disconnect
                || (|t| >= 3 && t[|t| - 2] == ArmAlarm(sleepTime) && t[|t| - 3] == Disconnect))
            && GcCollect !in t
  {
    var t := pre + [Disconnect] + Sleep(Str("deepsleep"), sleepTime).actions;
    if Truthy(sleepTime) {
      assert t == pre + [Disconnect, ArmAlarm(sleepTime), DeepSleep];
    } else {
      assert t == pre + [Disconnect, DeepSleep];
    }
  }

  /** Under deep sleep the supervisor hands every device `oneshot`. */
  lemma DeepSleepForcesOneshot(conf: map<string, Json>, machineId: string, reg: seq<string>, env: CycleEnv)
    requires DeepSleeps(conf)
    ensures forall a :: a in Cycle(conf, machineId, reg, env).out.actions && a.InitDevice? ==>
              Truthy(GetOr(a.args, "oneshot", Bool(false)))
  {
    forall a | a in Cycle(conf, machineId, reg, env).out.actions && a.InitDevice?
      ensures Truthy(GetOr(a.args, "oneshot", Bool(false)))
    {
      CycleMember(conf, machineId, reg, env, a);
      if a in Body(conf, machineId, reg, env).out.actions {
        BodyOneshot(conf, machineId, reg, env, a);
      }
    }
  }

  /** Under deep sleep every device the `try` block constructs gets
      `oneshot`. */
  lemma BodyOneshot(conf: map<string, Json>, machineId: string, reg: seq<string>, env: CycleEnv, a: Action)
    requires DeepSleeps(conf) && a in Body(conf, machineId, reg, env).out.actions && a.InitDevice?
    ensures Truthy(GetOr(a.args, "oneshot", Bool(false)))
  {
    BodyMember(conf, machineId, reg, env, a);
  }

  /** Without the health report nothing is connected or published. */
  lemma NoHealthNoTraffic(conf: map<string, Json>, machineId: string, reg: seq<string>, env: CycleEnv)
    requires !Truthy(GetOr(conf, "publish_health", Bool(true)))
    ensures forall a :: a in Cycle(conf, machineId, reg, env).out.actions ==> !a.Connect? && !a.Publish?
  {
    forall a | a in Cycle(conf, machineId, reg, env).out.actions
      ensures !a.Connect? && !a.Publish?
    {
      CycleMember(conf, machineId, reg, env, a);
      if a in Body(conf, machineId, reg, env).out.actions {
        BodyQuiet(conf, machineId, reg, env, a);
      }
    }
  }

  /** Without the health report the `try` block only disconnects. */
  lemma BodyQuiet(conf: map<string, Json>, machineId: string, reg: seq<string>, env: CycleEnv, a: Action)
    requires !Truthy(GetOr(conf, "publish_health", Bool(true)))
    requires a in Body(conf, machineId, reg, env).out.actions
    ensures !a.Connect? && !a.Publish?
  {
    BodyMember(conf, machineId, reg, env, a);
  }

  /** Yet the client is still told to disconnect: with a registry already
      built and no health report, the pass starts with `mqtt.disconnect()`
      on a client that was never connected. */
  lemma NoHealthStillDisconnects(conf: map<string, Json>, machineId: string, reg: seq<string>, env: CycleEnv)
    requires !Truthy(GetOr(conf, "publish_health", Bool(true))) && reg != []
    ensures var t := Cycle(conf, machineId, reg, env).out.actions;
            |t| > 0 && t[0] == Disconnect
  {
    assert InitPhase(conf, reg, env, DeepSleeps(conf)) == InitResult(reg, [], false);
    assert Health(conf, machineId, env) == Outcome([], Continue);
    var b := Body(conf, machineId, reg, env).out;
    var z := Sleep(GetOr(conf, "sleep_type", Str("wait")), GetOr(conf, "sleep_time", Int(60000)));
    var gc := if DeepSleeps(conf) then [] else [GcCollect];
    if env.disconnectOk {
      assert b.actions == [Disconnect] + gc + z.actions;
    } else {
      assert b.actions == [Disconnect];
    }
    if b.end == Propagated {
      assert Cycle(conf, machineId, reg, env).out.actions == b.actions + Fault(conf, LibHandler).actions;
    }
  }

  /** The device the supervisor constructs for entry `name`: the endpoint
      receives `(server,)` for `mqtt`, `oneshot` under deep sleep, and a
      sample function exactly when it is called "rpm". */
  method InitEndpoint(conf: map<string, Json>, name: string, args: map<string, Json>, machineId: string,
                      created: int, now: int, sensor: Option<Json>, pending: Option<Capabilities.Incoming>,
                      accepted: nat, echoAccepted: nat)
    returns (d: Endpoint.Device, ok: bool)
    requires ServerOf(conf).Some?
    ensures DeepSleeps(conf) ==> d.oneshot
    ensures d.sampled <==> name == "rpm"
    ensures d.publish == Endpoint.PublishSetting(InitArgs(args, DeepSleeps(conf)), name, machineId)
    ensures Endpoint.Call(ok, d.Snapshot())
            == Endpoint.Construct(d.Wiring(), Endpoint.Initial(InitArgs(args, DeepSleeps(conf)), created),
                                  sensor, pending, now, accepted, echoAccepted)
  {
    var server := ServerOf(conf).value;
    var a := InitArgs(args, DeepSleeps(conf));
    d, ok := Endpoint.NewDevice(name, a, Endpoint.ServerTuple(server, None), machineId, created, now, sensor, pending,
                               accepted, echoAccepted);
    Endpoint.SampleIgnoresOwnKwargsWithTuple(name, a, server);
  }

  /** The whole loop never does anything after `machine.deepsleep()`. */
  lemma RunPowersDownLast(conf: map<string, Json>, machineId: string, envs: seq<CycleEnv>)
    ensures PowersDownLast(Run(conf, machineId, envs))
  {
    forall r, e ensures PowersDownLast(Cycles(conf, machineId)(r, e).out) {
      CyclePowersDownLast(conf, machineId, r, e);
    }
    if ServerOf(conf).Some? {
      LoopPowersDownLast(Cycles(conf, machineId), [], envs);
    }
  }

  /** A pass that powers down sleeps once, as its last call. */
  lemma PowersDownOnce(conf: map<string, Json>, machineId: string, reg: seq<string>, env: CycleEnv)
    requires Cycle(conf, machineId, reg, env).out.end == PoweredDown
    ensures var t := Cycle(conf, machineId, reg, env).out.actions;
            Count(t, DeepSleep) == 1 && t[|t| - 1] == DeepSleep
  {
    PoweredDownPass(conf, machineId, reg, env);
    var init := InitPhase(conf, reg, env, true);
    var health := Health(conf, machineId, env);
    var pre := init.actions + health.actions + [Disconnect];
    var z := Sleep(Str("deepsleep"), GetOr(conf, "sleep_time", Int(60000)));
    assert DeepSleep !in init.actions && DeepSleep !in health.actions;
    assert DeepSleep !in pre;
    SleepsLast(pre, Str("deepsleep"), GetOr(conf, "sleep_time", Int(60000)));
  }

  lemma CyclePowersDownLast(conf: map<string, Json>, machineId: string, reg: seq<string>, env: CycleEnv)
    ensures PowersDownLast(Cycle(conf, machineId, reg, env).out)
  {
    var init := InitPhase(conf, reg, env, DeepSleeps(conf));
    var health := Health(conf, machineId, env);
    var z := Sleep(GetOr(conf, "sleep_type", Str("wait")), GetOr(conf, "sleep_time", Int(60000)));
    assert DeepSleep !in init.actions && DeepSleep !in health.actions;
    TryBlockSleeps(env.disconnectOk, DeepSleeps(conf), init, health, z);
    var b := Body(conf, machineId, reg, env).out;
    var f := Fault(conf, LibHandler);
    assert DeepSleep !in f.actions;
    if b.end == Propagated {
      assert Cycle(conf, machineId, reg, env).out.actions == b.actions + f.actions;
    }
    if b.end == PoweredDown {
      PowersDownOnce(conf, machineId, reg, env);
    }
  }
}
