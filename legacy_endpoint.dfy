/** The older endpoint class `Device` of src/device.py. It aggregates events
    like the one in src/lib/device.py, but it always has a pin, shares the
    supervisor's MQTT client, has no PWM, no `oneshot`, no retained publish
    and no echo: its write functions return None, so a control message never
    reaches the buffer. Sections are set up only when their value is truthy.

    The shared client has a single message callback: each device with a
    subscribe section replaces it, so every message that any device's
    `check_msg()` takes goes to the write function of the device configured
    last. */
module LegacyEndpoint {
  import opened JsonValue
  import opened Effects
  import opened Capabilities

  function ReadFnNamed(id: string): Option<ReadFn> {
    if id == "read_dht11" then Some(ReadDht11)
    else if id == "read_dht22" then Some(ReadDht22)
    else if id == "read_status" then Some(ReadStatus)
    else if id == "read_rpm" then Some(ReadRpm)
    else None
  }

  function WriteFnNamed(id: string): Option<WriteFn> {
    if id == "write_status" then Some(WriteStatus)
    else if id == "toggle_status" then Some(ToggleStatus)
    else None
  }

  /** The client is shared, so `function_sample` is looked up in the
      device's own keyword arguments. */
  predicate SampleBound(name: string, args: map<string, Json>) {
    GetOr(args, "function_sample", Str("sample_" + name)) == Str("sample_rpm")
  }

  /** The `read` section: scheduled on the pin interrupt or on a timer, which
      needs `interval`. */
  function ReadSetting(args: map<string, Json>, name: string): Setting<ReadFn> {
    var read := GetOr(args, "read", Null);
    if !Truthy(read) then Absent
    else if !read.Obj? then Invalid
    else
      var id := FunctionId(read.fields, "read_", name);
      if id.None? || ReadFnNamed(id.value).None? then Invalid
      else if !Truthy(GetOr(read.fields, "irq", Null)) && "interval" !in read.fields then Invalid
      else Valid(ReadFnNamed(id.value).value)
  }

  /** The `publish` section, skipped when falsy (an empty dict included). */
  function PublishSetting(args: map<string, Json>, name: string, machineId: string): Setting<string> {
    var publish := GetOr(args, "publish", Null);
    if !Truthy(publish) then Absent
    else if !publish.Obj? then Invalid
    else
      var topic := TopicFor(publish.fields, name, "", machineId);
      if topic.None? then Invalid else Valid(topic.value)
  }

  /** The `subscribe` section, skipped when falsy. */
  function SubscribeSetting(args: map<string, Json>, name: string, machineId: string): Setting<SubscribeSpec> {
    var subscribe := GetOr(args, "subscribe", Null);
    if !Truthy(subscribe) then Absent
    else if !subscribe.Obj? then Invalid
    else
      var id := FunctionId(subscribe.fields, "write_", name);
      var topic := TopicFor(subscribe.fields, name, "/control", machineId);
      if id.None? || WriteFnNamed(id.value).None? || topic.None? then Invalid
      else Valid(SubscribeSpec(topic.value, WriteFnNamed(id.value).value))
  }

  /** The legacy write functions change the pin and return None. */
  function LegacyWrite(subscribe: Setting<SubscribeSpec>, level: Option<int>, msg: Incoming): (a: Applied)
    ensures a.result.Some? ==> a.result.value == Null
    ensures a.pwm.None?
  {
    if !subscribe.Valid? then Applied(level, None, None)
    else
      var w := WriteOutcome(subscribe.value.write, level, None, msg);
      Applied(w.level, None, if w.result.Some? then Some(Null) else None)
  }

  /** The MQTT client the supervisor hands to every device: the callback set
      last and the topics subscribed, in order. */
  class Client {
    var callback: Option<Device>
    var topics: seq<string>

    constructor ()
      ensures callback.None? && topics == []
    {
      callback := None;
      topics := [];
    }

    /** The device whose state a delivered message can change. */
    function Handlers(): set<Device>
      reads this
    {
      if callback.Some? then {callback.value} else {}
    }
  }

  class Device {
    const name: string
    const mqtt: Client
    const pinGiven: bool
    const sampled: bool
    const read: Setting<ReadFn>
    const publish: Setting<string>
    const subscribe: Setting<SubscribeSpec>

    var events: nat
    var data: seq<Json>
    var time: int
    var level: Option<int>
    var sent: seq<Message>
    var irqMasked: bool

    /** Field set-up of `__init__`. `pin` is a required argument; the output
        pin starts high, as in src/lib/device.py. */
    constructor (name: string, args: map<string, Json>, mqtt: Client, machineId: string, now: int)
      ensures this.name == name && this.mqtt == mqtt && pinGiven == ("pin" in args)
      ensures sampled == SampleBound(name, args)
      ensures read == ReadSetting(args, name)
      ensures publish == PublishSetting(args, name, machineId)
      ensures subscribe == SubscribeSetting(args, name, machineId)
      ensures events == 0 && data == [] && time == now && level == Some(1)
      ensures sent == [] && !irqMasked
    {
      this.name := name;
      this.mqtt := mqtt;
      pinGiven := "pin" in args;
      sampled := SampleBound(name, args);
      read := ReadSetting(args, name);
      publish := PublishSetting(args, name, machineId);
      subscribe := SubscribeSetting(args, name, machineId);
      events, data, time := 0, [], now;
      level := Some(1);
      sent, irqMasked := [], false;
    }

    /** The rest of `__init__`: the sections are bound in order and their
        timers or interrupt set up; nothing is read or sent yet. A subscribe
        section makes this device the client's callback and subscribes its
        control topic. */
    method Configure() returns (ok: bool)
      modifies mqtt
      ensures ok <==> pinGiven && read != Invalid && publish != Invalid && subscribe != Invalid
      ensures mqtt.topics == old(mqtt.topics) + (if ok && subscribe.Valid? then [subscribe.value.topic] else [])
      ensures mqtt.callback == (if ok && subscribe.Valid? then Some(this) else old(mqtt.callback))
    {
      if !pinGiven || read == Invalid || publish == Invalid || subscribe == Invalid {
        return false;
      }
      if subscribe.Valid? {
        mqtt.callback := Some(this);
        mqtt.topics := mqtt.topics + [subscribe.value.topic];
      }
      ok := true;
    }

    /** `_callback_read`: counts the event and buffers a truthy reading. */
    method CallbackRead(sensor: Option<Json>) returns (ok: bool)
      modifies this
      ensures events == old(events) + 1
      ensures var r := if read.Valid? then ReadOutcome(read.value, old(level), None, sensor) else None;
              ok == r.Some?
              && data == (if ok && Truthy(r.value) then old(data) + [r.value] else old(data))
      ensures time == old(time) && level == old(level) && sent == old(sent) && irqMasked == old(irqMasked)
    {
      events := events + 1;
      var r := if read.Valid? then ReadOutcome(read.value, level, None, sensor) else None;
      if r.None? {
        return false;
      }
      if Truthy(r.value) {
        data := data + [r.value];
      }
      ok := true;
    }

    /** `_callback_subscribe`: counts the message and applies the write
        function, whose None result is never buffered; nothing is sent. */
    method CallbackSubscribe(msg: Incoming) returns (ok: bool)
      modifies this
      ensures var a := LegacyWrite(subscribe, old(level), msg);
              ok == a.result.Some? && level == a.level
      ensures events == old(events) + 1 && data == old(data)
      ensures time == old(time) && sent == old(sent) && irqMasked == old(irqMasked)
    {
      events := events + 1;
      var a := LegacyWrite(subscribe, level, msg);
      level := a.level;
      // The `if data:` of the source never holds: the result is None.
      ok := a.result.Some?;
    }

    /** `reset` */
    method Reset(now: int)
      modifies this
      ensures events == 0 && data == [] && time == now
      ensures level == old(level) && sent == old(sent) && irqMasked == old(irqMasked)
    {
      events, data, time := 0, [], now;
    }

    /** `read_data`, as in src/lib/device.py. */
    method ReadData(now: int) returns (ok: bool, count: nat, items: seq<Json>)
      modifies this
      ensures var h := Harvest(sampled, old(events), old(data), now - old(time));
              ok == h.Some?
              && (ok ==> count == old(events) && items == h.value
                         && events == 0 && data == [] && time == now && irqMasked == old(irqMasked))
              && (!ok ==> events == old(events) && data == old(data) && time == old(time) && irqMasked)
      ensures level == old(level) && sent == old(sent)
    {
      var saved := irqMasked;
      irqMasked := true;
      var h := Harvest(sampled, events, data, now - time);
      if h.None? {
        return false, 0, [];
      }
      count, items := events, h.value;
      Reset(now);
      irqMasked := saved;
      ok := true;
    }

    /** `publish_data`: harvests first, then sends every item in order to the
        publish topic, on a client that accepts `accepted` publishes and
        raises on the next one. Without a publish section the harvest still
        happens and the topic lookup then raises, so the harvested items are
        lost. */
    method PublishData(now: int, accepted: nat) returns (ok: bool)
      modifies this
      ensures var h := Harvest(sampled, old(events), old(data), now - old(time));
              (h.None? ==> !ok && events == old(events) && data == old(data) && time == old(time)
                           && sent == old(sent) && irqMasked)
              && (h.Some? ==> events == 0 && data == [] && time == now && irqMasked == old(irqMasked)
                              && (ok <==> publish.Valid? && |h.value| <= accepted)
                              && sent == old(sent) + (if publish.Valid? then
                                                        Messages(publish.value, h.value[..if accepted < |h.value| then accepted else |h.value|])
                                                      else []))
      ensures level == old(level)
    {
      var got, count, items := ReadData(now);
      if !got {
        return false;
      }
      if !publish.Valid? {
        return false;
      }
      var out := sent;
      var i := 0;
      while i < |items|
        invariant 0 <= i <= |items| && i <= accepted
        invariant out == old(sent) + Messages(publish.value, items[..i])
      {
        if i == accepted {
          sent := out;
          return false;
        }
        assert items[..i + 1][..i] == items[..i];
        out := out + [Message(publish.value, items[i], false)];
        i := i + 1;
      }
      assert items[..|items|] == items;
      sent := out;
      ok := true;
    }

    /** `subscribe_data`: its log line reads `self.subscribe`, then
        `check_msg()` hands the pending message, if any, to the client's
        callback: the device configured last, not necessarily this one.
        umqtt calls a callback that was never set, which raises. */
    method SubscribeData(pending: Option<Incoming>) returns (ok: bool)
      modifies mqtt.Handlers()
      ensures !subscribe.Valid? || pending.None? ==> ok == subscribe.Valid?
      ensures !subscribe.Valid? || pending.None? || mqtt.callback.None? ==> unchanged(mqtt.Handlers())
      ensures subscribe.Valid? && pending.Some? && mqtt.callback.None? ==> !ok
      ensures subscribe.Valid? && pending.Some? && mqtt.callback.Some? ==>
                var h := mqtt.callback.value;
                var a := LegacyWrite(h.subscribe, old(h.level), pending.value);
                ok == a.result.Some? && h.level == a.level && h.events == old(h.events) + 1
                && h.data == old(h.data) && h.time == old(h.time) && h.sent == old(h.sent)
                && h.irqMasked == old(h.irqMasked)
    {
      if !subscribe.Valid? {
        return false;
      }
      if pending.None? {
        return true;
      }
      var h := mqtt.callback;
      if h.None? {
        return false;
      }
      ok := h.value.CallbackSubscribe(pending.value);
    }
  }

  /** Two devices with subscribe sections on one client: a message that the
      first one's poll takes goes to the second one's write function and
      pin, and the first one does not see it. */
  method LastSubscriberHandles(first: Device, second: Device, msg: Incoming) returns (ok: bool)
    requires first != second && first.mqtt == second.mqtt
    requires first.pinGiven && first.read != Invalid && first.publish != Invalid && first.subscribe.Valid?
    requires second.pinGiven && second.read != Invalid && second.publish != Invalid && second.subscribe.Valid?
    modifies first, second, first.mqtt
    ensures first.mqtt.callback == Some(second)
    ensures first.mqtt.topics == old(first.mqtt.topics) + [first.subscribe.value.topic, second.subscribe.value.topic]
    ensures first.events == old(first.events) && first.level == old(first.level)
    ensures second.events == old(second.events) + 1
    ensures second.level == LegacyWrite(second.subscribe, old(second.level), msg).level
  {
    var firstOk := first.Configure();
    var secondOk := second.Configure();
    ok := first.SubscribeData(Some(msg));
  }
}
