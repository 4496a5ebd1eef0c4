/** What the two supervisors (src/lib/firmware.py and src/firmware.py) share:
    the device registry built by the initialisation loop of `main`, the health
    report, the hand-over from the `try` block to the exception handler, and
    the `while True` loop unrolled over a finite list of passes. */
module Registry {
  import opened JsonValue
  import opened Effects
  import opened Power
  import Capabilities

  /** `time.ticks_ms()`, `gc.mem_free()` and `gc.mem_alloc()` at the health report. */
  datatype Stats = Stats(uptime: int, memFree: int, memAlloc: int)

  /** What the outside world decides during one pass of the loop: the
      iteration order of the `device` dict, whether `Device(name, **args)`
      returns or raises, whether the client's connect, publish and disconnect
      calls return or raise, and the figures of the health report. */
  datatype CycleEnv = CycleEnv(
    order: seq<string>,
    constructs: string -> bool,
    connectOk: bool,
    publishOk: bool,
    disconnectOk: bool,
    stats: Stats)

  predicate Distinct(s: seq<string>) {
    forall i, j :: 0 <= i < j < |s| ==> s[i] != s[j]
  }

  /** `conf.config.get('device', {})` */
  function DeviceSection(conf: map<string, Json>): Json {
    GetOr(conf, "device", Obj(map[]))
  }

  /** The iteration order lists exactly the keys of the device section. */
  predicate OrderFits(conf: map<string, Json>, order: seq<string>) {
    var d := DeviceSection(conf);
    d.Obj? ==> (forall n :: n in order ==> n in d.fields) && (forall n :: n in d.fields ==> n in order)
  }

  /** `conf.config['publish']['server']`, read once before the loop; `bytes(.., 'ascii')`
      needs a string. None when `main` raises there. */
  function ServerOf(conf: map<string, Json>): (r: Option<string>)
    ensures r.Some? ==> "publish" in conf && conf["publish"].Obj? && "server" in conf["publish"].fields
                        && conf["publish"].fields["server"] == Str(r.value)
    ensures r.None? ==> "publish" !in conf || !conf["publish"].Obj? || !GetOr(conf["publish"].fields, "server", Null).Str?
  {
    if "publish" in conf && conf["publish"].Obj? && "server" in conf["publish"].fields
       && conf["publish"].fields["server"].Str?
    then Some(conf["publish"].fields["server"].s)
    else None
  }

  /** `conf.config['publish']`, a dict once `ServerOf` has succeeded. */
  function PublishSection(conf: map<string, Json>): map<string, Json> {
    if "publish" in conf && conf["publish"].Obj? then conf["publish"].fields else map[]
  }

  /** The keyword arguments `Device(name, **args)` receives besides `mqtt`,
      which the supervisor overwrites: under deep sleep `oneshot` is forced on. */
  function InitArgs(args: map<string, Json>, deep: bool): (r: map<string, Json>)
    ensures "mqtt" !in r
    ensures deep ==> "oneshot" in r && r["oneshot"] == Bool(true)
    ensures forall k :: k in args && k != "mqtt" && (k != "oneshot" || !deep) ==> k in r && r[k] == args[k]
    ensures forall k :: k in r ==> k in args || (deep && k == "oneshot")
  {
    var own := args - {"mqtt"};
    if deep then own["oneshot" := Bool(true)] else own
  }

  /** The outcome of the initialisation loop: the registry's names in
      insertion order, the constructor calls made, and whether it raised. */
  datatype InitResult = InitResult(devices: seq<string>, actions: seq<Action>, raised: bool)

  /** The `for name, args in ... .items()` loop, from registry `reg`. A name
      already registered is skipped; an `args` that is not a dict makes
      `args['mqtt'] = ...` raise before the constructor is called; a
      constructor that raises ends the loop with the registry as it is.
      (Names outside `devs` never occur once `OrderFits` holds.) */
  function Inits(devs: map<string, Json>, order: seq<string>, reg: seq<string>, deep: bool,
                 constructs: string -> bool): (r: InitResult)
    ensures |r.devices| >= |reg| && r.devices[..|reg|] == reg
    ensures forall a :: a in r.actions ==>
              a.InitDevice? && a.name in devs && devs[a.name].Obj? && a.args == InitArgs(devs[a.name].fields, deep)
    decreases |order|
  {
    if order == [] then InitResult(reg, [], false)
    else
      var n := order[0];
      if n !in devs || n in reg then Inits(devs, order[1..], reg, deep, constructs)
      else if !devs[n].Obj? then InitResult(reg, [], true)
      else
        var a := InitDevice(n, InitArgs(devs[n].fields, deep));
        if !constructs(n) then InitResult(reg, [a], true)
        else
          var rest := Inits(devs, order[1..], reg + [n], deep, constructs);
          assert rest.devices[..|reg| + 1] == reg + [n];
          assert rest.devices[..|reg|] == (reg + [n])[..|reg|] == reg;
          assert rest.devices[|reg|] == (reg + [n])[|reg|] == n;
          InitResult(rest.devices, [a] + rest.actions, rest.raised)
  }

  /** Every name in the registry the loop leaves was already there or was
      listed and constructed, and none is registered twice. */
  lemma {:induction false} InitsRegistered(devs: map<string, Json>, order: seq<string>, reg: seq<string>, deep: bool,
                                          constructs: string -> bool)
    ensures var r := Inits(devs, order, reg, deep, constructs);
            (forall n :: n in r.devices ==> n in reg || (n in order && n in devs && constructs(n)))
            && (Distinct(reg) ==> Distinct(r.devices))
    decreases |order|
  {
    if order != [] {
      var n := order[0];
      if n !in devs || n in reg {
        InitsRegistered(devs, order[1..], reg, deep, constructs);
      } else if devs[n].Obj? && constructs(n) {
        var reg' := reg + [n];
        InitsRegistered(devs, order[1..], reg', deep, constructs);
        if Distinct(reg) {
          assert Distinct(reg') by {
            forall i, j | 0 <= i < j < |reg'|
              ensures reg'[i] != reg'[j]
            {
              if j == |reg| {
                assert reg'[i] == reg[i];
              }
            }
          }
        }
      }
    }
  }

  /** The loop raises only for an entry that is not a dict or a constructor
      that raises, and when it does not raise every listed name is registered. */
  lemma {:induction false} InitsCovers(devs: map<string, Json>, order: seq<string>, reg: seq<string>, deep: bool,
                                      constructs: string -> bool)
    ensures var r := Inits(devs, order, reg, deep, constructs);
            (!r.raised ==> forall n :: n in order && n in devs ==> n in r.devices)
            && ((forall n :: n in order && n in devs ==> devs[n].Obj? && constructs(n)) ==> !r.raised)
    decreases |order|
  {
    var r := Inits(devs, order, reg, deep, constructs);
    if order != [] {
      var n := order[0];
      if n !in devs || n in reg {
        InitsCovers(devs, order[1..], reg, deep, constructs);
        forall m | m in order && m in devs && !r.raised
          ensures m in r.devices
        {
          if m == n {
            assert m in r.devices[..|reg|];
          } else {
            assert m in order[1..];
          }
        }
      } else if devs[n].Obj? && constructs(n) {
        InitsCovers(devs, order[1..], reg + [n], deep, constructs);
        forall m | m in order && m in devs && !r.raised
          ensures m in r.devices
        {
          if m == n {
            assert r.devices[..|reg| + 1] == reg + [n];
            assert r.devices[|reg|] == n;
          } else {
            assert m in order[1..];
          }
        }
      }
    }
  }

  function Prepend(acts: seq<Action>, r: InitResult): InitResult {
    InitResult(r.devices, acts + r.actions, r.raised)
  }

  /** The initialisation loop run from an empty registry, one entry at a time. */
  method InitDevices(devs: map<string, Json>, order: seq<string>, deep: bool, constructs: string -> bool)
    returns (r: InitResult)
    ensures r == Inits(devs, order, [], deep, constructs)
  {
    var reg: seq<string> := [];
    var acts: seq<Action> := [];
    var i := 0;
    while i < |order|
      invariant 0 <= i <= |order|
      invariant Inits(devs, order, [], deep, constructs) == Prepend(acts, Inits(devs, order[i..], reg, deep, constructs))
    {
      var n := order[i];
      assert order[i..][0] == n && order[i..][1..] == order[i + 1..];
      if n in devs && n !in reg {
        if !devs[n].Obj? {
          return InitResult(reg, acts, true);
        }
        var a := InitDevice(n, InitArgs(devs[n].fields, deep));
        if !constructs(n) {
          return InitResult(reg, acts + [a], true);
        }
        assert acts + ([a] + Inits(devs, order[i + 1..], reg + [n], deep, constructs).actions)
            == (acts + [a]) + Inits(devs, order[i + 1..], reg + [n], deep, constructs).actions;
        acts := acts + [a];
        reg := reg + [n];
      }
      i := i + 1;
    }
    assert order[|order|..] == [];
    return InitResult(reg, acts, false);
  }

  /** `if not devices:` the loop runs only while the registry is empty, over
      `conf.config.get('device', {})`, whose `.items()` raises unless it is a dict. */
  function InitPhase(conf: map<string, Json>, reg: seq<string>, env: CycleEnv, deep: bool): (r: InitResult)
    ensures reg != [] ==> r == InitResult(reg, [], false)
  {
    if reg != [] then InitResult(reg, [], false)
    else
      var d := DeviceSection(conf);
      if !d.Obj? then InitResult([], [], true)
      else Inits(d.fields, env.order, [], deep, env.constructs)
  }

  /** `if not devices:` as the supervisor runs it. */
  method InitRegistry(conf: map<string, Json>, reg: seq<string>, env: CycleEnv, deep: bool) returns (init: InitResult)
    requires OrderFits(conf, env.order)
    ensures init == InitPhase(conf, reg, env, deep)
  {
    init := InitResult(reg, [], false);
    if reg == [] {
      var section := DeviceSection(conf);
      if !section.Obj? {
        init := InitResult([], [], true);
      } else {
        init := InitDevices(section.fields, env.order, deep, env.constructs);
      }
    }
  }

  /** The topic of the health report: `str()` of the publish section's
      `topic_base` (default "esp/<machine id>") followed by "/health". */
  function HealthTopic(publish: map<string, Json>, machineId: string): (t: Option<string>)
    ensures "topic_base" !in publish ==> t == Some(Capabilities.DefaultTopicBase(machineId) + "/health")
    ensures "topic_base" in publish && publish["topic_base"].Str? ==> t == Some(publish["topic_base"].s + "/health")
    ensures "topic_base" in publish && publish["topic_base"].Int? && publish["topic_base"].i >= 0 ==>
              t == Some(Capabilities.Decimal(publish["topic_base"].i) + "/health")
    ensures t.None? <==> "topic_base" in publish && (publish["topic_base"].Arr? || publish["topic_base"].Obj?)
  {
    if "topic_base" !in publish then Some(Capabilities.DefaultTopicBase(machineId) + "/health")
    else
      var base := Capabilities.PyStr(publish["topic_base"]);
      if base.None? then None else Some(base.value + "/health")
  }

  /** The health record: friendly name (default the machine id), machine id,
      uptime and memory figures. It is not retained. */
  function HealthMessage(conf: map<string, Json>, machineId: string, stats: Stats): (m: Option<Message>)
    ensures m.Some? <==> HealthTopic(PublishSection(conf), machineId).Some?
    ensures m.Some? ==> !m.value.retain && m.value.payload.Obj?
                        && m.value.payload.fields.Keys == {"name", "id", "uptime", "mem_free", "mem_alloc"}
                        && m.value.payload.fields["id"] == Str(machineId)
                        && m.value.payload.fields["name"] == GetOr(conf, "friendly_name", Str(machineId))
  {
    var topic := HealthTopic(PublishSection(conf), machineId);
    if topic.None? then None
    else Some(Message(topic.value, Obj(map[
      "name" := GetOr(conf, "friendly_name", Str(machineId)),
      "id" := Str(machineId),
      "uptime" := Int(stats.uptime),
      "mem_free" := Int(stats.memFree),
      "mem_alloc" := Int(stats.memAlloc)]), false))
  }

  /** The registry after a pass and what the pass did. */
  datatype Step = Step(devices: seq<string>, out: Outcome)

  /** A `try` block that raised hands over to the exception handler. */
  function Settle(conf: map<string, Json>, h: Handler, body: Step): (s: Step)
    ensures s.devices == body.devices
    ensures body.out.end != Propagated ==> s == body
    ensures body.out.end == Propagated ==>
              s.out == Outcome(body.out.actions + Fault(conf, h).actions, Fault(conf, h).end)
  {
    if body.out.end != Propagated then body
    else Step(body.devices, Outcome(body.out.actions + Fault(conf, h).actions, Fault(conf, h).end))
  }

  /** `while True:` over the passes `envs`: it stops at the first pass that
      does not end in `Continue`. */
  function Loop(cycle: (seq<string>, CycleEnv) -> Step, reg: seq<string>, envs: seq<CycleEnv>): Outcome
    decreases |envs|
  {
    if envs == [] then Outcome([], Continue)
    else
      var s := cycle(reg, envs[0]);
      if s.out.end != Continue then s.out
      else
        After(s.out.actions, Loop(cycle, s.devices, envs[1..]))
  }

  /** One more pass of `Loop`, for a loop that has run the passes before `i`
      and recorded `before`. */
  lemma LoopStep(cycle: (seq<string>, CycleEnv) -> Step, envs: seq<CycleEnv>, i: nat, reg: seq<string>,
                 before: seq<Action>)
    requires i < |envs|
    requires Loop(cycle, [], envs) == After(before, Loop(cycle, reg, envs[i..]))
    ensures var s := cycle(reg, envs[i]);
            if s.out.end != Continue then Loop(cycle, [], envs) == Outcome(before + s.out.actions, s.out.end)
            else Loop(cycle, [], envs) == After(before + s.out.actions, Loop(cycle, s.devices, envs[i + 1..]))
  {
    assert envs[i..][0] == envs[i] && envs[i..][1..] == envs[i + 1..];
    var s := cycle(reg, envs[i]);
    if s.out.end == Continue {
      var rest := Loop(cycle, s.devices, envs[i + 1..]).actions;
      assert before + (s.out.actions + rest) == (before + s.out.actions) + rest;
    }
  }

  /** Deep sleep happens at most once, as the very last thing. */
  predicate PowersDownLast(o: Outcome) {
    (DeepSleep in o.actions ==> o.end == PoweredDown)
    && (o.end == PoweredDown ==> Count(o.actions, DeepSleep) == 1 && o.actions[|o.actions| - 1] == DeepSleep)
  }

  /** Calls free of deep sleep followed by a `sleep` that powers down:
      the deep sleep happens once, at the end. */
  lemma SleepsLast(pre: seq<Action>, sleepType: Json, sleepTime: Json)
    requires DeepSleep !in pre && Sleep(sleepType, sleepTime).end == PoweredDown
    ensures var t := pre + Sleep(sleepType, sleepTime).actions;
            Count(t, DeepSleep) == 1 && t[|t| - 1] == DeepSleep
  {
    var z := Sleep(sleepType, sleepTime).actions;
    CountAppend(pre, z, DeepSleep);
    assert Count(z, DeepSleep) == 1;
  }

  /** When every pass powers down only at its end, so does the whole loop:
      the device never does anything after `machine.deepsleep()`. */
  lemma {:induction false} LoopPowersDownLast(cycle: (seq<string>, CycleEnv) -> Step, reg: seq<string>, envs: seq<CycleEnv>)
    requires forall r, e :: PowersDownLast(cycle(r, e).out)
    ensures PowersDownLast(Loop(cycle, reg, envs))
    decreases |envs|
  {
    if envs != [] {
      var s := cycle(reg, envs[0]);
      assert PowersDownLast(s.out);
      if s.out.end == Continue {
        var rest := Loop(cycle, s.devices, envs[1..]);
        LoopPowersDownLast(cycle, s.devices, envs[1..]);
        CountAppend(s.out.actions, rest.actions, DeepSleep);
      }
    }
  }
}
