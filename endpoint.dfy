/** The endpoint class `Device` of src/lib/device.py: a named sensor or
    actuator with an event counter, a buffer of readings and the time of the
    last reset, which timer or interrupt callbacks fill and `read_data`
    harvests. The MQTT client is replaced by the `sent` log and the
    `subscriptions` list; pin and PWM hardware by the `level` and `pwm`
    fields; the clock by `now` parameters. `read_data` runs with interrupts
    masked, so each method here is one atomic step.

    What the callbacks do is stated on values first: `Setup` is what
    construction fixes, `State` what the callbacks change, and each event
    function maps a state to a `Call`, whether the callback returned or
    raised together with the state it left. The class's methods are proved
    to compute exactly these functions. The client's failures are an input:
    in one call it accepts the first `accepted` publishes and raises on the
    next one. */
module Endpoint {
  import opened JsonValue
  import opened Effects
  import opened Capabilities

  /** The `mqtt` argument: a client object, or a tuple `(server,)` /
      `(server, options)` from which the device builds its own client. */
  datatype MqttArg = Client | ServerTuple(server: string, options: Option<map<string, Json>>)

  /** The read functions `getattr` can find on this class. */
  function ReadFnNamed(id: string): Option<ReadFn> {
    if id == "read_dht11" then Some(ReadDht11)
    else if id == "read_dht22" then Some(ReadDht22)
    else if id == "read_ds18x20" then Some(ReadDs18x20)
    else if id == "read_status" then Some(ReadStatus)
    else if id == "read_pwm" then Some(ReadPwm)
    else if id == "read_rpm" then Some(ReadRpm)
    else None
  }

  /** The write functions `getattr` can find on this class. */
  function WriteFnNamed(id: string): Option<WriteFn> {
    if id == "write_pwm" then Some(WritePwm)
    else if id == "write_status" then Some(WriteStatus)
    else if id == "toggle_status" then Some(ToggleStatus)
    else None
  }

  /** The keyword arguments the `function_sample` lookup consults: when
      `mqtt` is a tuple the local `kwargs` has been replaced by the tuple's
      options (or `{}`), so the device's own `function_sample` is ignored. */
  function SampleKwargs(args: map<string, Json>, mqtt: MqttArg): map<string, Json> {
    match mqtt
    case Client => args
    case ServerTuple(_, options) => if options.Some? then options.value else map[]
  }

  /** Whether `function_sample` is bound: the looked-up name, by default
      `sample_<name>`, must be `sample_rpm`; any failure leaves it None. */
  predicate SampleBound(name: string, args: map<string, Json>, mqtt: MqttArg) {
    GetOr(SampleKwargs(args, mqtt), "function_sample", Str("sample_" + name)) == Str("sample_rpm")
  }

  lemma SampleIgnoresOwnKwargsWithTuple(name: string, args: map<string, Json>, server: string)
    ensures SampleBound(name, args, ServerTuple(server, None)) <==> name == "rpm"
  {
    if name == "rpm" {
    } else {
      assert "sample_" + name != "sample_rpm" by {
        if |name| == 3 {
          assert ("sample_" + name)[7..] == name;
        }
      }
    }
  }

  /** The `read` section: falsy means none; it must be a dict, its function
      must resolve, and without `oneshot` it must be schedulable: on the pin
      interrupt (which needs a pin) or on a timer (which needs `interval`). */
  function ReadSetting(args: map<string, Json>, name: string, hasPin: bool, oneshot: bool): Setting<ReadFn> {
    var read := GetOr(args, "read", Null);
    if !Truthy(read) then Absent
    else if !read.Obj? then Invalid
    else
      var id := FunctionId(read.fields, "read_", name);
      if id.None? || ReadFnNamed(id.value).None? then Invalid
      else if !oneshot && !(if Truthy(GetOr(read.fields, "irq", Null)) then hasPin else "interval" in read.fields)
      then Invalid
      else Valid(ReadFnNamed(id.value).value)
  }

  /** The `publish` section: present unless None; a dict with a string topic. */
  function PublishSetting(args: map<string, Json>, name: string, machineId: string): Setting<PublishSpec> {
    var publish := GetOr(args, "publish", Null);
    if publish.Null? then Absent
    else if !publish.Obj? then Invalid
    else
      var topic := TopicFor(publish.fields, name, "", machineId);
      if topic.None? then Invalid
      else Valid(PublishSpec(topic.value, Truthy(GetOr(publish.fields, "retain", Bool(false)))))
  }

  /** The `subscribe` section: present unless None; a dict whose function
      resolves, with a string control topic. */
  function SubscribeSetting(args: map<string, Json>, name: string, machineId: string): Setting<SubscribeSpec> {
    var subscribe := GetOr(args, "subscribe", Null);
    if subscribe.Null? then Absent
    else if !subscribe.Obj? then Invalid
    else
      var id := FunctionId(subscribe.fields, "write_", name);
      var topic := TopicFor(subscribe.fields, name, "/control", machineId);
      if id.None? || WriteFnNamed(id.value).None? || topic.None? then Invalid
      else Valid(SubscribeSpec(topic.value, WriteFnNamed(id.value).value))
  }

  /** The bound read function's result; None when it raises (also when no
      read function is bound). */
  function ReadCall(read: Setting<ReadFn>, level: Option<int>, pwm: Option<Pwm>, sensor: Option<Json>): Option<Json> {
    if read.Valid? then ReadOutcome(read.value, level, pwm, sensor) else None
  }

  /** The bound write function's effect; raising when none is bound. */
  function WriteCall(subscribe: Setting<SubscribeSpec>, level: Option<int>, pwm: Option<Pwm>, msg: Incoming): Applied {
    if subscribe.Valid? then WriteOutcome(subscribe.value.write, level, pwm, msg) else Applied(level, pwm, None)
  }

  /** What construction fixes. */
  datatype Setup = Setup(oneshot: bool, sampled: bool, read: Setting<ReadFn>,
                         publish: Setting<PublishSpec>, subscribe: Setting<SubscribeSpec>)

  /** What the callbacks change: the event counter, the buffered readings,
      the time of the last reset, the pin and PWM, the messages sent, the
      topics subscribed and whether interrupts are masked. */
  datatype State = State(events: nat, data: seq<Json>, time: int, level: Option<int>, pwm: Option<Pwm>,
                         sent: seq<Message>, subscriptions: seq<string>, irqMasked: bool)

  /** How a callback ended (`ok` false: it raised) and the state it left. */
  datatype Call = Call(ok: bool, state: State)

  /** The output pin, created with `value=self.pin.value`: a bound method,
      truthy, so it starts high. None without a pin. */
  function PinOf(args: map<string, Json>): Option<int> {
    if Truthy(GetOr(args, "pin", Null)) then Some(1) else None
  }

  /** The PWM channel with its default frequency 1000 and duty 1024. */
  function PwmOf(args: map<string, Json>): Option<Pwm> {
    if Truthy(GetOr(args, "pwm", Null)) then Some(Pwm(GetOr(args, "freq", Int(1000)), GetOr(args, "duty", Int(1024))))
    else None
  }

  /** The state `__init__` starts the sections from. */
  function Initial(args: map<string, Json>, now: int): (s: State)
    ensures s.events == 0 && s.data == [] && s.time == now && s.sent == [] && s.subscriptions == []
    ensures !s.irqMasked && (s.level.Some? <==> Truthy(GetOr(args, "pin", Null)))
  {
    State(0, [], now, PinOf(args), PwmOf(args), [], [], false)
  }

  /** `reset`: the aggregator emptied and its clock restarted. */
  function Cleared(s: State, now: int): (t: State)
    ensures t.events == 0 && t.data == [] && t.time == now
    ensures t.(events := s.events, data := s.data, time := s.time) == s
  {
    s.(events := 0, data := [], time := now)
  }

  /** `_callback_read`: counts the event, calls the read function and
      buffers its result only when it is truthy. `sensor` is the driver's
      output for this call. */
  function ReadEvent(u: Setup, s: State, sensor: Option<Json>): (c: Call)
    ensures var r := ReadCall(u.read, s.level, s.pwm, sensor);
            (c.ok <==> r.Some?)
            && c.state.events == s.events + 1
            && (c.ok && Truthy(r.value) ==> c.state.data == s.data + [r.value])
            && (!(c.ok && Truthy(r.value)) ==> c.state.data == s.data)
    ensures c.state.(events := s.events, data := s.data) == s
  {
    var r := ReadCall(u.read, s.level, s.pwm, sensor);
    var t := s.(events := s.events + 1);
    if r.None? then Call(false, t)
    else if Truthy(r.value) then Call(true, t.(data := t.data + [r.value]))
    else Call(true, t)
  }

  /** `publish_data`: harvests and sends. With `retain` only the last item
      goes out, retained, and an empty harvest raises IndexError after the
      reset; otherwise every item goes to the publish topic in order, until
      the client raises. Without a publish section it raises at once. */
  function PublishEvent(u: Setup, s: State, now: int, accepted: nat): (c: Call)
    ensures !u.publish.Valid? ==> c == Call(false, s)
    ensures u.publish.Valid? && Harvest(u.sampled, s.events, s.data, now - s.time).None? ==>
              c == Call(false, s.(irqMasked := true))
    ensures u.publish.Valid? && Harvest(u.sampled, s.events, s.data, now - s.time).Some? ==>
              var plan := PublishPlan(u.publish.value, Harvest(u.sampled, s.events, s.data, now - s.time).value);
              c.state.(sent := s.sent) == Cleared(s, now)
              && (c.ok <==> plan.Some? && |plan.value| <= accepted)
              && (c.ok ==> c.state.sent == s.sent + plan.value)
              && |s.sent| <= |c.state.sent| <= |s.sent| + accepted
              && c.state.sent[..|s.sent|] == s.sent
  {
    if !u.publish.Valid? then Call(false, s)
    else
      var h := Harvest(u.sampled, s.events, s.data, now - s.time);
      if h.None? then Call(false, s.(irqMasked := true))
      else
        var plan := PublishPlan(u.publish.value, h.value);
        var cleared := Cleared(s, now);
        if plan.None? then Call(false, cleared)
        else if accepted < |plan.value| then Call(false, cleared.(sent := s.sent + plan.value[..accepted]))
        else Call(true, cleared.(sent := s.sent + plan.value))
  }

  /** `_callback_subscribe`: counts the message and applies the write
      function; a truthy result is buffered and published at once, so the
      harvest it triggers carries it. */
  function MessageEvent(u: Setup, s: State, msg: Incoming, now: int, accepted: nat): (c: Call)
    ensures var a := WriteCall(u.subscribe, s.level, s.pwm, msg);
            c.state.level == a.level && c.state.pwm == a.pwm && c.state.subscriptions == s.subscriptions
            && (c.ok ==> a.result.Some?)
            && (a.result.None? ==> c.state == s.(events := s.events + 1, level := a.level, pwm := a.pwm))
    ensures var a := WriteCall(u.subscribe, s.level, s.pwm, msg);
            a.result.Some? && !Truthy(a.result.value)
            ==> c == Call(true, s.(events := s.events + 1, level := a.level, pwm := a.pwm))
    ensures var a := WriteCall(u.subscribe, s.level, s.pwm, msg);
            a.result.Some? && Truthy(a.result.value)
            ==> c == PublishEvent(u, s.(events := s.events + 1, level := a.level, pwm := a.pwm,
                                        data := s.data + [a.result.value]), now, accepted)
  {
    var a := WriteCall(u.subscribe, s.level, s.pwm, msg);
    var t := s.(events := s.events + 1, level := a.level, pwm := a.pwm);
    if a.result.None? then Call(false, t)
    else if Truthy(a.result.value) then PublishEvent(u, t.(data := t.data + [a.result.value]), now, accepted)
    else Call(true, t)
  }

  /** A `write_pwm` message whose payload is the empty dict changes nothing
      on the PWM and returns that falsy dict: the message is counted, nothing
      is buffered or published, and the callback goes through. */
  lemma EmptyPwmMessageNotPublished(u: Setup, s: State, topic: string, now: int, accepted: nat)
    requires u.subscribe.Valid? && u.subscribe.value.write == WritePwm && s.pwm.Some?
    ensures MessageEvent(u, s, Incoming(topic, "{}", Some(Obj(map[]))), now, accepted) == Call(true, s.(events := s.events + 1))
  {
    var msg := Incoming(topic, "{}", Some(Obj(map[])));
    WritePwmEffect(s.level, s.pwm.value, msg);
  }

  /** `subscribe_data`: `check_msg()` hands the pending message, if any, to
      `_callback_subscribe`. Its log line reads `self.subscribe`, which
      raises on a device without a subscribe section. */
  function PollEvent(u: Setup, s: State, pending: Option<Incoming>, now: int, accepted: nat): (c: Call)
    ensures !u.subscribe.Valid? ==> c == Call(false, s)
    ensures u.subscribe.Valid? && pending.None? ==> c == Call(true, s)
  {
    if !u.subscribe.Valid? then Call(false, s)
    else if pending.None? then Call(true, s)
    else MessageEvent(u, s, pending.value, now, accepted)
  }

  /** The rest of `__init__`, in its order: the read section (one read now
      when `oneshot`), the publish section (one publish now when `oneshot`),
      the subscribe section (subscribe, then one poll now when `oneshot`).
      Each section raises before it acts when it is unusable. Without
      `oneshot` the callbacks are left to timers and interrupts. `accepted`
      and `echoAccepted` are the client's behaviour in the one-shot publish
      and in a publish the poll triggers. */
  function Construct(u: Setup, s: State, sensor: Option<Json>, pending: Option<Incoming>,
                     now: int, accepted: nat, echoAccepted: nat): (c: Call)
    ensures c.ok ==> u.read != Invalid && u.publish != Invalid && u.subscribe != Invalid
    ensures !u.oneshot ==> (c.ok <==> u.read != Invalid && u.publish != Invalid && u.subscribe != Invalid)
    ensures !u.oneshot ==>
              c.state == s.(subscriptions := s.subscriptions + (if c.ok && u.subscribe.Valid? then [u.subscribe.value.topic] else []))
  {
    if u.read == Invalid then Call(false, s)
    else
      var r := if u.read.Valid? && u.oneshot then ReadEvent(u, s, sensor) else Call(true, s);
      if !r.ok then r
      else if u.publish == Invalid then Call(false, r.state)
      else
        var p := if u.publish.Valid? && u.oneshot then PublishEvent(u, r.state, now, accepted) else r;
        if !p.ok then p
        else if u.subscribe == Invalid then Call(false, p.state)
        else if u.subscribe.Valid? then
          var t := p.state.(subscriptions := p.state.subscriptions + [u.subscribe.value.topic]);
          if u.oneshot then PollEvent(u, t, pending, now, echoAccepted) else Call(true, t)
        else Call(true, p.state)
  }

  lemma MessagesPrefix(topic: string, items: seq<Json>, k: nat)
    requires k <= |items|
    ensures Messages(topic, items[..k]) == Messages(topic, items)[..k]
  {
  }

  /** When the client raises part-way through a non-retained publish, the
      readings it accepted are sent in order and the rest are lost: the
      buffer has already been reset. */
  lemma PublishFailureLosesRest(u: Setup, s: State, now: int, accepted: nat)
    requires u.publish.Valid? && !u.publish.value.retain && !u.sampled
    requires accepted < |s.data|
    ensures var c := PublishEvent(u, s, now, accepted);
            !c.ok && c.state.data == [] && c.state.events == 0
            && c.state.sent == s.sent + Messages(u.publish.value.topic, s.data[..accepted])
  {
    MessagesPrefix(u.publish.value.topic, s.data, accepted);
  }

  /** A one-shot device with a read and a non-retained publish section (and
      no sample function or subscription) reads once, then sends the old
      buffer and the new truthy reading in order, as far as the client
      accepts them; a read that raises stops construction before anything
      is sent. */
  lemma {:induction false} OneshotReadThenPublish(u: Setup, s: State, sensor: Option<Json>, pending: Option<Incoming>,
                                                  now: int, accepted: nat, echoAccepted: nat)
    requires u.oneshot && !u.sampled && u.read.Valid? && u.publish.Valid? && !u.publish.value.retain
    requires u.subscribe == Absent
    ensures var r := ReadCall(u.read, s.level, s.pwm, sensor);
            var c := Construct(u, s, sensor, pending, now, accepted, echoAccepted);
            (r.None? ==> c == Call(false, s.(events := s.events + 1)))
            && (r.Some? ==>
                  var items := s.data + (if Truthy(r.value) then [r.value] else []);
                  var n := if accepted < |items| then accepted else |items|;
                  (c.ok <==> |items| <= accepted)
                  && c.state.events == 0 && c.state.data == [] && c.state.time == now
                  && c.state.sent == s.sent + Messages(u.publish.value.topic, items[..n]))
  {
    var r := ReadCall(u.read, s.level, s.pwm, sensor);
    var c := Construct(u, s, sensor, pending, now, accepted, echoAccepted);
    var rc := ReadEvent(u, s, sensor);
    if r.Some? {
      var items := s.data + (if Truthy(r.value) then [r.value] else []);
      var n := if accepted < |items| then accepted else |items|;
      assert rc.ok && rc.state == s.(events := s.events + 1, data := items);
      var p := PublishEvent(u, rc.state, now, accepted);
      assert c == (if p.ok then Call(true, p.state) else p);
      assert Harvest(u.sampled, rc.state.events, rc.state.data, now - rc.state.time) == Some(items);
      MessagesPrefix(u.publish.value.topic, items, n);
      assert items[..|items|] == items;
    } else {
      assert c == rc;
    }
  }

  /** A one-shot device whose read adds nothing, with an empty buffer and a
      retained publish section, raises IndexError in its one publish: after
      the reset, with nothing sent. */
  lemma OneshotRetainedEmptyRaises(u: Setup, s: State, sensor: Option<Json>, pending: Option<Incoming>,
                                   now: int, accepted: nat, echoAccepted: nat)
    requires u.oneshot && !u.sampled && u.publish.Valid? && u.publish.value.retain && s.data == []
    requires u.read == Absent || (u.read.Valid? && ReadCall(u.read, s.level, s.pwm, sensor) == Some(Null))
    ensures var c := Construct(u, s, sensor, pending, now, accepted, echoAccepted);
            !c.ok && c.state.data == [] && c.state.events == 0 && c.state.time == now && c.state.sent == s.sent
  {
  }

  /** A one-shot `rpm` device publishing in the second it was created:
      `sample_rpm` divides by a zero interval, construction raises, nothing
      is sent and interrupts stay masked. */
  lemma OneshotRpmSameSecond(u: Setup, s: State, sensor: Option<Json>, pending: Option<Incoming>,
                             accepted: nat, echoAccepted: nat)
    requires u.oneshot && u.sampled && u.publish.Valid?
    requires u.read == Absent || (u.read.Valid? && ReadCall(u.read, s.level, s.pwm, sensor).Some?)
    ensures var c := Construct(u, s, sensor, pending, s.time, accepted, echoAccepted);
            !c.ok && c.state.irqMasked && c.state.sent == s.sent && c.state.time == s.time
  {
  }

  /** A one-shot device with only a subscribe section whose pending message
      yields a truthy result buffers it, then raises in `publish_data`,
      which has no publish section to read. */
  lemma OneshotEchoWithoutPublish(u: Setup, s: State, sensor: Option<Json>, msg: Incoming,
                                  now: int, accepted: nat, echoAccepted: nat)
    requires u.oneshot && u.read == Absent && u.publish == Absent && u.subscribe.Valid?
    requires var a := WriteCall(u.subscribe, s.level, s.pwm, msg); a.result.Some? && Truthy(a.result.value)
    ensures var a := WriteCall(u.subscribe, s.level, s.pwm, msg);
            var c := Construct(u, s, sensor, Some(msg), now, accepted, echoAccepted);
            !c.ok && c.state.data == s.data + [a.result.value] && c.state.events == s.events + 1
            && c.state.sent == s.sent && c.state.subscriptions == s.subscriptions + [u.subscribe.value.topic]
  {
  }

  /** An echo: on a non-retained, non-sampled endpoint a truthy write result
      is published with the buffer it joins, so when the client accepts
      them all it is the last message sent, and the buffer is empty after. */
  lemma EchoIsLastMessage(u: Setup, s: State, msg: Incoming, now: int, accepted: nat)
    requires !u.sampled && u.publish.Valid? && !u.publish.value.retain
    requires var a := WriteCall(u.subscribe, s.level, s.pwm, msg); a.result.Some? && Truthy(a.result.value)
    ensures var a := WriteCall(u.subscribe, s.level, s.pwm, msg);
            var c := MessageEvent(u, s, msg, now, accepted);
            (c.ok <==> |s.data| + 1 <= accepted)
            && c.state.data == [] && c.state.events == 0
            && (c.ok ==> |c.state.sent| > 0
                         && c.state.sent[|c.state.sent| - 1] == Message(u.publish.value.topic, a.result.value, false))
  {
  }

  class Device {
    const name: string
    const oneshot: bool
    const sampled: bool
    const read: Setting<ReadFn>
    const publish: Setting<PublishSpec>
    const subscribe: Setting<SubscribeSpec>

    var events: nat
    var data: seq<Json>
    var time: int
    var level: Option<int>
    var pwm: Option<Pwm>
    var sent: seq<Message>
    var subscriptions: seq<string>
    var irqMasked: bool

    function Wiring(): Setup {
      Setup(oneshot, sampled, read, publish, subscribe)
    }

    function Snapshot(): State
      reads this
    {
      State(events, data, time, level, pwm, sent, subscriptions, irqMasked)
    }

    /** The field set-up of `__init__`: clock, sample binding, empty
        aggregator, pin and PWM, and the resolution of the three sections. */
    constructor (name: string, args: map<string, Json>, mqtt: MqttArg, machineId: string, now: int)
      ensures this.name == name
      ensures oneshot == Truthy(GetOr(args, "oneshot", Bool(false)))
      ensures sampled == SampleBound(name, args, mqtt)
      ensures read == ReadSetting(args, name, PinOf(args).Some?, oneshot)
      ensures publish == PublishSetting(args, name, machineId)
      ensures subscribe == SubscribeSetting(args, name, machineId)
      ensures Snapshot() == Initial(args, now)
    {
      this.name := name;
      var shot := Truthy(GetOr(args, "oneshot", Bool(false)));
      oneshot := shot;
      sampled := SampleBound(name, args, mqtt);
      time := now;
      events := 0;
      data := [];
      level := PinOf(args);
      pwm := PwmOf(args);
      read := ReadSetting(args, name, PinOf(args).Some?, shot);
      publish := PublishSetting(args, name, machineId);
      subscribe := SubscribeSetting(args, name, machineId);
      sent := [];
      subscriptions := [];
      irqMasked := false;
    }

    /** `_callback_read`; `ok` is false when the read function raised (the
        count has already gone up). */
    method CallbackRead(sensor: Option<Json>) returns (ok: bool)
      modifies this
      ensures Call(ok, Snapshot()) == ReadEvent(Wiring(), old(Snapshot()), sensor)
    {
      events := events + 1;
      var r := ReadCall(read, level, pwm, sensor);
      if r.None? {
        return false;
      }
      if Truthy(r.value) {
        data := data + [r.value];
      }
      ok := true;
    }

    /** `reset`. */
    method Reset(now: int)
      modifies this
      ensures Snapshot() == Cleared(old(Snapshot()), now)
    {
      events := 0;
      data := [];
      time := now;
    }

    /** `read_data`: with interrupts masked, captures the counter and either
        the sample function's record or the buffer, resets, and restores the
        mask. When `sample_rpm` divides by a zero interval the exception
        leaves the state as it was and interrupts still masked. */
    method ReadData(now: int) returns (ok: bool, count: nat, items: seq<Json>)
      modifies this
      ensures var h := Harvest(sampled, old(events), old(data), now - old(time));
              ok == h.Some?
              && (ok ==> count == old(events) && items == h.value && Snapshot() == Cleared(old(Snapshot()), now))
              && (!ok ==> Snapshot() == old(Snapshot()).(irqMasked := true))
    {
      var saved := irqMasked;
      irqMasked := true;
      var h := Harvest(sampled, events, data, now - time);
      if h.None? {
        return false, 0, [];
      }
      count, items := events, h.value;
      Reset(now);
      irqMasked := saved;
      ok := true;
    }

    /** `publish_data`, on a client that accepts `accepted` publishes. */
    method PublishData(now: int, accepted: nat) returns (ok: bool)
      modifies this
      ensures Call(ok, Snapshot()) == PublishEvent(Wiring(), old(Snapshot()), now, accepted)
    {
      if !publish.Valid? {
        return false;
      }
      var spec := publish.value;
      var got, count, items := ReadData(now);
      if !got {
        return false;
      }
      if spec.retain {
        if items == [] || accepted == 0 {
          return false;
        }
        sent := sent + [Message(spec.topic, items[|items| - 1], true)];
      } else {
        var out := sent;
        var i := 0;
        while i < |items|
          invariant 0 <= i <= |items| && i <= accepted
          invariant out == old(sent) + Messages(spec.topic, items[..i])
        {
          if i == accepted {
            MessagesPrefix(spec.topic, items, i);
            sent := out;
            return false;
          }
          assert items[..i + 1][..i] == items[..i];
          out := out + [Message(spec.topic, items[i], false)];
          i := i + 1;
        }
        assert items[..|items|] == items;
        sent := out;
      }
      ok := true;
    }

    /** `_callback_subscribe`; `ok` is false when something raised. */
    method CallbackSubscribe(msg: Incoming, now: int, accepted: nat) returns (ok: bool)
      modifies this
      ensures Call(ok, Snapshot()) == MessageEvent(Wiring(), old(Snapshot()), msg, now, accepted)
    {
      ghost var s := Snapshot();
      var a := WriteCall(subscribe, level, pwm, msg);
      events := events + 1;
      level, pwm := a.level, a.pwm;
      ghost var t := s.(events := s.events + 1, level := a.level, pwm := a.pwm);
      assert Snapshot() == t;
      if a.result.None? {
        return false;
      }
      if Truthy(a.result.value) {
        data := data + [a.result.value];
        assert Snapshot() == t.(data := t.data + [a.result.value]);
        ok := PublishData(now, accepted);
      } else {
        ok := true;
      }
    }

    /** `subscribe_data`: `pending` is what `check_msg()` takes from the
        broker. */
    method SubscribeData(pending: Option<Incoming>, now: int, accepted: nat) returns (ok: bool)
      modifies this
      ensures Call(ok, Snapshot()) == PollEvent(Wiring(), old(Snapshot()), pending, now, accepted)
    {
      if !subscribe.Valid? {
        return false;
      }
      if pending.None? {
        return true;
      }
      ok := CallbackSubscribe(pending.value, now, accepted);
    }

    /** The sections of `__init__`; `ok` is false when the constructor
        raises. */
    method Configure(sensor: Option<Json>, pending: Option<Incoming>, now: int, accepted: nat, echoAccepted: nat)
      returns (ok: bool)
      modifies this
      ensures Call(ok, Snapshot()) == Construct(Wiring(), old(Snapshot()), sensor, pending, now, accepted, echoAccepted)
    {
      if read == Invalid {
        return false;
      }
      if read.Valid? && oneshot {
        var readOk := CallbackRead(sensor);
        if !readOk {
          return false;
        }
      }
      if publish == Invalid {
        return false;
      }
      if publish.Valid? && oneshot {
        var publishOk := PublishData(now, accepted);
        if !publishOk {
          return false;
        }
      }
      if subscribe == Invalid {
        return false;
      }
      if subscribe.Valid? {
        subscriptions := subscriptions + [subscribe.value.topic];
        if oneshot {
          ok := SubscribeData(pending, now, echoAccepted);
          return;
        }
      }
      ok := true;
    }
  }

  /** `Device(name, **args)`: the constructor followed by the sections;
      `ok` is false when it raises. `created` and `now` are the two clock
      readings, at the start of `__init__` and at its one-shot publish. */
  method NewDevice(name: string, args: map<string, Json>, mqtt: MqttArg, machineId: string,
                   created: int, now: int, sensor: Option<Json>, pending: Option<Incoming>,
                   accepted: nat, echoAccepted: nat)
    returns (d: Device, ok: bool)
    ensures fresh(d) && d.name == name
    ensures d.oneshot == Truthy(GetOr(args, "oneshot", Bool(false)))
    ensures d.sampled == SampleBound(name, args, mqtt)
    ensures d.read == ReadSetting(args, name, PinOf(args).Some?, d.oneshot)
    ensures d.publish == PublishSetting(args, name, machineId)
    ensures d.subscribe == SubscribeSetting(args, name, machineId)
    ensures Call(ok, d.Snapshot()) == Construct(d.Wiring(), Initial(args, created), sensor, pending, now, accepted, echoAccepted)
  {
    d := new Device(name, args, mqtt, machineId, created);
    ok := d.Configure(sensor, pending, now, accepted, echoAccepted);
  }

  /** Two harvests with no event in between: the second one is `(0, [])`. */
  method HarvestTwice(d: Device, now1: int, now2: int) returns (first: (nat, seq<Json>), second: (nat, seq<Json>))
    requires !d.sampled
    modifies d
    ensures first == (old(d.events), old(d.data))
    ensures second == (0, [])
    ensures d.Snapshot() == Cleared(old(d.Snapshot()), now2)
  {
    var ok1, c1, i1 := d.ReadData(now1);
    var ok2, c2, i2 := d.ReadData(now2);
    first, second := (c1, i1), (c2, i2);
  }
}
