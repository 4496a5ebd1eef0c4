# esp-firmware, modelled in Dafny

esp-firmware is MicroPython firmware for ESP8266/ESP32 boards that read
sensors, drive pins and talk to an MQTT broker. This project models four
parts of it and proves properties about them.

- **The endpoint class `Device`**, in its current form (src/lib/device.py)
  and its older form (src/device.py). A device is a named sensor or
  actuator with an event counter, a buffer of readings and the time of the
  last reset. Timer and interrupt callbacks (`_callback_read`) and control
  messages (`_callback_subscribe`) fill the buffer. `read_data` harvests it
  with interrupts masked, and `publish_data` sends the harvest to the
  device's topic. The current form can also run "one-shot": it reads,
  publishes and polls once at construction, for boards that deep-sleep
  between wake-ups.
- **The supervisor `main`**, in src/lib/firmware.py and in src/firmware.py.
  It loops forever. Each pass builds the device registry if it is empty,
  publishes a health report, and sleeps in the configured mode (`wait`,
  `idle`, `sleep` or `deepsleep`). Any exception in a pass goes to a
  configurable handler: re-raise, wait, reset the board or exit.
- **The deep-sleep script src/main.py**. It merges the board's JSON
  configuration into its defaults with `dictmerge`. It then reads every
  configured sensor and publishes each reading with up to three attempts
  before deep-sleeping. An outer loop retries or re-raises, depending on
  the merged configuration.
- **The first single-sensor script main.py**. It reads a DHT11 (up to
  three attempts), publishes the reading (up to three attempts) and
  deep-sleeps for a minute.

How the model is built:

- The outside world is an input. This covers the iteration order of
  dicts, whether a sensor read, a constructor or a broker call raises, the
  decoded contents of the configuration file, and the clock.
- What the code does to the world is an `Action` trace: connect, publish,
  disconnect, measure, pause, arm the RTC alarm, deep sleep, reset, and
  so on.
- Every run ends in one of five ways: the loop goes on, an exception
  propagates, the board resets, `sys.exit()` is called, or the board
  powers down.
- Python's truthiness, its `==` (where `1 == True`) and `dict.get` are
  written out, because the code branches on all three.
- Objects whose fields the source updates in place are classes:
  `Endpoint.Device`, `LegacyEndpoint.Device`, `Firmware.Supervisor`,
  `LegacyFirmware.Supervisor` and `ConfigScript.Script`. Their methods are
  proved against value-level functions (`ReadEvent`, `PublishEvent`,
  `MessageEvent`, `Construct`, `Cycle`, `Run`, `MainCall`, `Merge`). The
  properties are then proved about those functions.
- The older `Device` classes share the supervisor's MQTT client, modelled
  as `LegacyEndpoint.Client`. The client has one message callback, and the
  device configured last owns it.
- Loops stay loops: `dictmerge`, the two retry loops, the registry
  initialisation, the publish loops and the outer `while True` loops (over
  a finite list of passes).

Files:

- json.dfy: decoded JSON values, truthiness and Python `==`.
- effects.dfy: messages, actions and how a run ends.
- power.dfy: `sleep` and the exception handler.
- registry.dfy: what both supervisors share.
- firmware.dfy and legacy_firmware.dfy: the two supervisors.
- capabilities.dfy: the read, write and sample functions of an endpoint.
- endpoint.dfy and legacy_endpoint.dfy: the two `Device` classes.
- config_merge.dfy: `dictmerge`.
- config_script.dfy: src/main.py.
- retry.dfy and dht_script.dfy: main.py.

## Model

| member | source | states |
|---|---|---|
| Power.Sleep | src/lib/firmware.py:21-35 | Deep sleep powers down exactly for a numeric time, and `machine.deepsleep()` is the last call. The RTC alarm is armed only for a truthy time. `wait` and `deepsleep` raise on a non-number. `idle`, `sleep` and unknown modes go on. |
| Power.DeepSleepArmsAlarm | src/lib/firmware.py:22-29 | Deep sleep with a truthy time arms the alarm, then powers down, and does nothing else. |
| Power.Fault | src/lib/firmware.py:116-133 | With `exception_raise` the exception propagates untouched. Otherwise the handler waits `exception_wait` (default 10). It resets exactly when `exception_reset` holds (raising on a non-numeric wait), exits only when it does not reset, and otherwise continues. Reset and exit each appear in the trace only when the handler ends that way. The garbage collector runs only in the version that collects. |
| Power.DefaultHandlers | src/firmware.py:101-112 | With no `exception_*` keys, src/lib/firmware.py collects, waits 10 s and resets. src/firmware.py only waits 10 s and lets the loop go on. |
| ConfigMerge.Merge | src/lib/firmware.py:46-59 | The keys of `dictmerge(a, b)` are those of `a` and `b`. Keys only in `a` keep their value. |
| ConfigMerge.DictMerge | src/main.py:70-83 | The loop over the keys of `b` (recursing into nested dicts) returns exactly `Merge(a, b)`. |
| ConfigMerge.MergeAt | src/main.py:73-82 | For a key of `b`: nested dicts merge recursively. A value `==` to `a`'s keeps `a`'s value. Otherwise `b`'s value wins. |
| ConfigMerge.MergeOverrides | src/main.py:77-80 | Unless both sides are dicts, the merged value is Python-equal to `b`'s value, and it is either `b`'s value or `a`'s. |
| ConfigMerge.MergeRecurses | src/main.py:75-76 | When both sides are dicts, the merged value is the recursive merge. |
| ConfigMerge.MergeSelf | src/main.py:70-83 | Merging a dict into itself changes nothing. |
| ConfigMerge.MergeIdempotent | src/main.py:70-83 | Merging the same `b` twice gives the same result as merging it once. |
| ConfigMerge.MergeKeepsKey | src/main.py:73-82 | No key of `a` is ever lost. |
| Retry.FirstOk | main.py:11-25 | Returns the first successful attempt (below 3) and that every attempt before it failed, or 3 when all three fail. |
| Retry.Attempts | main.py:32-44 | The loop makes between 1 and 3 attempts: one more than the index of the first success, or 3 when every attempt fails. |
| Retry.JoinPauses | main.py:20-25 | There is a 3-second pause between attempts and none after the last one: n attempts give n-1 pauses. |
| Retry.ReadDht11 | main.py:7-25 | The retry loop returns the first successful measurement, raises when all three fail, and makes exactly the measurements and pauses of the specified trace. |
| Retry.MeasuresCounted | main.py:12-14 | n attempts call `d.measure()` exactly n times. |
| Retry.AttemptCalls | main.py:33-38 | One publish attempt begins with `connect()` and makes at most connect, publish and disconnect. |
| Retry.PublishData | src/main.py:43-59 | The publish loop reports delivery exactly when one of the three attempts succeeds, and makes exactly the specified calls. |
| Retry.PublishConnects | main.py:32-34 | n attempts connect exactly n times. |
| Retry.PublishCallsOnly | main.py:28-44 | `publish_data` only connects, publishes the given message, disconnects and pauses. |
| Retry.PublishEndsAtSuccess | main.py:34-38 | When delivery succeeds, the last two calls are the publish and the disconnect. |
| DhtScript.TopicsDiffer | main.py:56-58 | Boards with different flash ids publish to different topics. |
| DhtScript.Run | main.py:55-59 | `main()` powers down exactly when a read and a publish both succeed within three attempts. Otherwise it raises. |
| DhtScript.Execute | main.py:55-63 | The script's calls and its ending are exactly those of `Run`. |
| DhtScript.PowersDownAfterPublish | main.py:55-59 | A board that sleeps has published the first successful reading to its own topic. It then disconnected, armed the one-minute alarm and deep-slept, in that order, at the end. |
| DhtScript.ReadsOnlyMeasure | main.py:7-25 | `read_dht11` only measures and pauses. |
| DhtScript.MeasuresBounded | main.py:11-25 | The sensor is measured once per read attempt, at most three times, whatever the attempts do. |
| DhtScript.ConnectsBounded | main.py:31-44 | The broker is connected at most three times. |
| Capabilities.ReadOutcome | src/lib/device.py:107-179 | `read_rpm` returns a falsy None. `read_status` returns `{"value": level}` and `read_pwm` exactly the PWM's `freq` and `duty`. Each raises when the endpoint has no pin (or PWM). The dht and ds18x20 readers, which build their driver on the pin, return the driver's reading or raise with it, and raise without a pin. |
| Capabilities.DecimalRoundTrip | main.py:56 | The decimal text `str(n)` of a natural number, as in the flash-id topic, reads back as the number. |
| Capabilities.PyStr | src/lib/firmware.py:96-99 | `str()` of a string is the string, of an integer its decimal text with a sign when negative. Only a list or a dict has no modelled text. |
| Capabilities.ParseInt | src/lib/device.py:140 | `int(payload)` succeeds only for a payload that contains a decimal digit. |
| Capabilities.ParseIntShape | src/lib/device.py:140 | MicroPython's `int()` of a string reads it in base 0. A success is always the signed value of what the payload is made of once its surrounding whitespace is stripped: a sign (`+`, `-` or none), an optional `0x`, `0o` or `0b` prefix (either case), and a non-empty run of digits of that base (decimal without a prefix). |
| Capabilities.ParseIntSigned | src/lib/device.py:140 | `int()` of an optionally signed (`+`, `-` or no sign) non-empty digit run, behind an optional `0x`/`0o`/`0b` prefix whose base its digits respect, succeeds. It gives that run's value in that base, negated for `-`. |
| Capabilities.ParseIntBarePrefix | src/lib/device.py:140 | A base prefix with no digits after it, such as `0b`, makes `int()` raise. |
| Capabilities.ParseIntRefusesDigit | src/lib/device.py:140 | A prefixed payload with a digit outside the prefix's base makes `int()` raise. |
| Capabilities.ParseIntBadDigit | src/lib/device.py:140 | `int("0x1g")` raises. |
| Capabilities.ParseIntPadded | src/lib/device.py:140 | Whitespace before and after a payload does not change what `int()` makes of it. |
| Capabilities.SetPwmField | src/lib/device.py:131-136 | A PWM field changes only for a present, truthy key, and raises when the endpoint has no PWM. |
| Capabilities.WriteStatusEffect | src/lib/device.py:139-143 | `write_status` drives the pin to the truthiness of `int(payload)` (read in base 0: surrounding whitespace ignored, an optional sign, an optional base prefix, digits of that base) and returns the truthy `{"value": payload}`. A payload `int` rejects changes nothing and raises. |
| Capabilities.ToggleEffect | src/lib/device.py:145-149 | `toggle_status` drives the complement of the current level and returns the new level. |
| Capabilities.WritePwmEffect | src/lib/device.py:129-137 | `write_pwm` changes the frequency only for a present, truthy `freq` and the duty only for a present, truthy `duty`, and returns the decoded payload. |
| Capabilities.WriteStatusNumeral | src/lib/device.py:139-141 | A payload made of a sign, an optional base prefix and digits of that base drives the pin to the truthiness of their signed value. |
| Capabilities.WriteStatusOne | src/lib/device.py:140 | A payload "1" drives the pin high. |
| Capabilities.WriteStatusHexOne | src/lib/device.py:140 | A payload "0x1" is read in base 16 and drives the pin high. |
| Capabilities.TopicFor | src/lib/device.py:67-70 | An explicit `topic` wins. Without one, the topic is `<topic_base>/<name><suffix>`, with `esp/<machine id>` as the default base. |
| Capabilities.DefaultTopicsDiffer | src/lib/device.py:65-84 | Without an explicit topic, the control topic is the data topic plus `/control`, so the two never coincide. |
| Capabilities.Harvest | src/lib/device.py:196-202 | Without a sample function, `read_data` returns the buffer. With `sample_rpm` it returns one record whose `rounds` is the event count, and it raises exactly when no whole second has passed since the last reset. |
| Capabilities.Messages | src/lib/device.py:213-214 | One non-retained message per reading, in order, to the publish topic. |
| Capabilities.PublishPlan | src/lib/device.py:209-215 | With `retain`, only the last reading is sent, flagged retained, and an empty harvest raises. Otherwise every reading is sent, in order. |
| Endpoint.SampleIgnoresOwnKwargsWithTuple | src/lib/device.py:17-37 | When `mqtt` is a `(server,)` tuple, `kwargs` is replaced, so a sample function is bound exactly when the device is named `rpm`, whatever its own `function_sample` says. |
| Endpoint.Initial | src/lib/device.py:12-50 | `__init__` starts the sections from an empty aggregator stamped with the creation time, no messages sent, no subscription, interrupts enabled, and a pin level exactly when a pin is given. |
| Endpoint.Cleared | src/lib/device.py:191-194 | `reset` zeroes the counter, empties the buffer and restarts the clock. Nothing else changes. |
| Endpoint.ReadEvent | src/lib/device.py:93-97 | `_callback_read` counts the event, even when the read function raises, and returns exactly when the read function does. It buffers the reading exactly when it returned a truthy value. Nothing else changes. |
| Endpoint.PublishEvent | src/lib/device.py:196-215 | `publish_data` raises at once, changing nothing, without a publish section. When `sample_rpm` raises, the state is unchanged and interrupts stay masked. Otherwise the aggregator is reset. The call returns exactly when the publish plan exists and the client accepts all of it, and then the log grows by exactly the plan. When it raises, the log grows by at most `accepted` messages and keeps its old contents as a prefix. |
| Endpoint.MessageEvent | src/lib/device.py:99-105 | `_callback_subscribe` leaves the pin and PWM as the write function set them and subscribes nothing. It returns only when the write function returned. When the write function raised, only the counter, pin and PWM change. A falsy result is neither buffered nor published, and the callback goes through. A truthy result is appended to the data and `publish_data` runs on that state. |
| Endpoint.EmptyPwmMessageNotPublished | src/lib/device.py:99-137 | A `write_pwm` message with the empty dict as payload only counts the event: the PWM is unchanged and nothing is buffered or sent. |
| Endpoint.PollEvent | src/lib/device.py:217-219 | `subscribe_data` raises, changing nothing, on a device without a subscribe section. With no pending message nothing changes. |
| Endpoint.Construct | src/lib/device.py:51-91 | Construction raises for any unusable section. Without `oneshot` it raises exactly then, and its only change is the subscription of a usable control topic. |
| Endpoint.PublishFailureLosesRest | src/lib/device.py:212-214 | When the client raises part-way through a non-retained publish, the readings it accepted were sent in order, and the rest are lost because the buffer was already reset. |
| Endpoint.OneshotReadThenPublish | src/lib/device.py:51-75 | A one-shot device with a read and a non-retained publish section reads once, then sends the old buffer and a truthy new reading in order, as far as the client accepts them. It constructs exactly when the client accepts all of them. A read that raises stops construction, counted, before anything is sent. |
| Endpoint.OneshotRetainedEmptyRaises | src/lib/device.py:209-211 | A one-shot retained publish of an empty harvest raises IndexError after the reset, with nothing sent. |
| Endpoint.OneshotRpmSameSecond | src/lib/device.py:181-207 | A one-shot `rpm` device publishing in the second it was created raises (`sample_rpm` divides by zero), sends nothing and leaves interrupts masked. |
| Endpoint.OneshotEchoWithoutPublish | src/lib/device.py:77-105 | A one-shot device with only a subscribe section buffers a truthy write result, then raises in `publish_data`, with nothing sent and its topic subscribed. |
| Endpoint.EchoIsLastMessage | src/lib/device.py:99-105 | On a non-retained, non-sampled endpoint, a truthy write result is published with the buffer it joins. The call returns exactly when the client accepts them all, and then the result is the last message sent, to the publish topic. The aggregator is empty afterwards. |
| Endpoint.Device.constructor | src/lib/device.py:12-50 | The fields of `__init__`: `oneshot`, the sample binding, the three resolved sections, and the state `Initial`. |
| Endpoint.Device.Configure | src/lib/device.py:51-91 | The sections of `__init__` end, and leave the state, exactly as `Construct` specifies. |
| Endpoint.NewDevice | src/lib/device.py:12-91 | `Device(name, **args)` binds exactly the resolved settings. Its outcome and state are exactly `Construct` applied to `Initial`. |
| Endpoint.Device.CallbackRead | src/lib/device.py:93-97 | Computes exactly `ReadEvent` on the device's state. |
| Endpoint.Device.Reset | src/lib/device.py:191-194 | Computes exactly `Cleared` on the device's state. |
| Endpoint.Device.ReadData | src/lib/device.py:196-207 | Returns the counter and the harvest, then resets and restores the interrupt mask. When `sample_rpm` raises, the state is unchanged and interrupts stay masked. |
| Endpoint.Device.PublishData | src/lib/device.py:209-215 | The publish loop computes exactly `PublishEvent` on the device's state. |
| Endpoint.Device.CallbackSubscribe | src/lib/device.py:99-105 | Computes exactly `MessageEvent` on the device's state. |
| Endpoint.Device.SubscribeData | src/lib/device.py:217-219 | Computes exactly `PollEvent` on the device's state. |
| Endpoint.HarvestTwice | src/lib/device.py:196-207 | Two harvests with no event in between: the second one is `(0, [])`, and the device ends reset at the second time. |
| LegacyEndpoint.LegacyWrite | src/device.py:92-96 | The old write functions return None and never touch a PWM. |
| LegacyEndpoint.Client.constructor | src/firmware.py:71 | The supervisor's client starts with no callback and no subscription. |
| LegacyEndpoint.Device.constructor | src/device.py:12-29 | Fields of `__init__`: the shared client, the sample binding from the device's own kwargs, sections skipped when falsy, and an empty aggregator. |
| LegacyEndpoint.Device.Configure | src/device.py:31-62 | Construction succeeds exactly when a pin is given and every section is usable. A usable subscribe section makes this device the shared client's callback and adds its control topic to the client's subscriptions. Nothing else changes. |
| LegacyEndpoint.Device.CallbackRead | src/device.py:64-68 | Counts the event and buffers a truthy reading. |
| LegacyEndpoint.Device.CallbackSubscribe | src/device.py:70-75 | Counts the message and applies the write function. Its None result is never buffered and nothing is sent. |
| LegacyEndpoint.Device.SubscribeData | src/device.py:143-145 | Raises without a subscribe section. A pending message goes to the shared client's callback, the device configured last, and moves only that device's counter and pin. Its buffer and log never change. It raises when no callback was set. |
| LegacyEndpoint.LastSubscriberHandles | src/device.py:59-60 | Of two devices subscribed on one client, the one configured last handles a message that the first one's poll takes. The first one's counter and pin do not move. |
| LegacyEndpoint.Device.Reset | src/device.py:120-123 | Empties the counter and the buffer and restarts the clock. |
| LegacyEndpoint.Device.ReadData | src/device.py:125-136 | Returns the counter and the harvest and resets. When `sample_rpm` raises, the state is unchanged and interrupts stay masked. |
| LegacyEndpoint.Device.PublishData | src/device.py:138-141 | Harvests first, then sends the readings in order as far as the client accepts them. It returns exactly when there is a publish section and the client accepts them all. Without a publish section the harvested readings are lost and it raises. |
| Registry.ServerOf | src/lib/firmware.py:71-75 | The broker address is read once, before the loop. `main` raises there unless `publish.server` is a string. |
| Registry.InitArgs | src/lib/firmware.py:83-87 | Each constructor gets the entry's arguments with `mqtt` replaced, plus `oneshot=True` under deep sleep. Nothing else is added or changed. |
| Registry.Inits | src/lib/firmware.py:80-89 | The initialisation loop only extends the registry it starts from. Every constructor call is for a listed dict entry, with exactly `InitArgs`. |
| Registry.InitsRegistered | src/lib/firmware.py:81-89 | Every registered name was already there or was listed and constructed. None is registered twice. |
| Registry.InitsCovers | src/lib/firmware.py:81-89 | The loop raises only for a non-dict entry or a failing constructor. When it does not raise, every listed name is registered. |
| Registry.InitDevices | src/lib/firmware.py:81-89 | The loop over the `device` dict builds exactly `Inits` from an empty registry. |
| Registry.InitPhase | src/lib/firmware.py:80 | A non-empty registry is left as it is and nothing is constructed. |
| Registry.InitRegistry | src/lib/firmware.py:80-89 | The registry step of a pass computes exactly `InitPhase`. |
| Registry.HealthTopic | src/lib/firmware.py:96-99 | The health topic is `str(topic_base)` followed by `/health`, with `esp/<machine id>` as the default base. A string base is used as it is and a number in decimal. Only a list or dict base has no modelled topic. |
| Registry.HealthMessage | src/lib/firmware.py:99-106 | The health report is not retained and has exactly the keys name, id, uptime, mem_free and mem_alloc. `id` is the machine id and `name` is `friendly_name`, defaulting to the machine id. |
| Registry.Settle | src/lib/firmware.py:116-133 | A pass that raises continues with the exception handler, keeping the registry built so far. Any other pass is unchanged. |
| Registry.LoopStep | src/lib/firmware.py:77-133 | `while True` unrolled: a pass that does not continue ends the loop; otherwise the next pass starts from the registry it left. |
| Registry.LoopPowersDownLast | src/lib/firmware.py:77-115 | If every pass does nothing after deep sleep, neither does the loop. |
| Firmware.Health | src/lib/firmware.py:92-106 | With `publish_health` falsy there is no traffic. Otherwise the report connects first, with `clean_session` (default True), and, when it succeeds, ends with the health message. |
| Firmware.Supervisor.constructor | src/lib/firmware.py:69-76 | The supervisor starts with an empty registry and no calls made. |
| Firmware.Supervisor.Pass | src/lib/firmware.py:78-133 | One pass updates the registry and the call log exactly as `Cycle` specifies. |
| Firmware.Supervise | src/lib/firmware.py:69-133 | The supervisor's calls and its ending are exactly those of `Run`. |
| Firmware.PoweredDownPass | src/lib/firmware.py:78-115 | A pass that powers down ran under `sleep_type` deepsleep. It constructed devices without raising, made the health report, disconnected and deep-slept, and nothing else. |
| Firmware.RegistryFrozen | src/lib/firmware.py:80-89 | Once the registry holds a device, no pass changes it or constructs anything. A registry left partial stays partial. |
| Firmware.RegistryFromEmpty | src/lib/firmware.py:80-89 | From an empty registry, every registered device was listed and constructed, none twice. When every entry is a dict and constructs, all are registered. |
| Firmware.DeepSleepDisconnectsFirst | src/lib/firmware.py:108-115 | A pass that powers down ends with the disconnect, then (for a truthy time) the alarm, then the deep sleep. The garbage collector is not run. |
| Firmware.DeepSleepForcesOneshot | src/lib/firmware.py:84-87 | Under deep sleep, every constructor call gets a truthy `oneshot`. |
| Firmware.NoHealthNoTraffic | src/lib/firmware.py:92-106 | With `publish_health` falsy, a pass never connects or publishes. |
| Firmware.NoHealthStillDisconnects | src/lib/firmware.py:92-108 | With `publish_health` falsy and the registry built, the pass still starts with `mqtt.disconnect()` on a client it never connected. |
| Firmware.InitEndpoint | src/lib/firmware.py:83-89 | A device built by the supervisor is one-shot under deep sleep. It samples exactly when it is named `rpm`, and its publish section comes from its entry. Its outcome and state are exactly `Construct` from the initial state of its arguments. |
| Firmware.PowersDownOnce | src/lib/firmware.py:109-115 | A pass that powers down deep-sleeps once, as its last call. |
| Firmware.RunPowersDownLast | src/lib/firmware.py:77-133 | The whole loop never does anything after `machine.deepsleep()`. |
| LegacyFirmware.Supervisor.constructor | src/firmware.py:68-72 | The supervisor starts with an empty registry and no calls made. |
| LegacyFirmware.Supervisor.Pass | src/firmware.py:74-112 | One pass updates the registry and the call log exactly as `Cycle` specifies. |
| LegacyFirmware.Supervise | src/firmware.py:68-112 | The supervisor's calls and its ending are exactly those of `Run`. |
| LegacyFirmware.ReconnectsNeverDisconnects | src/firmware.py:73-100 | Every pass starts with `connect(clean_session=False)`, and no pass ever disconnects, not even before deep sleep. |
| LegacyFirmware.RegistryFrozen | src/firmware.py:79-84 | Once the registry holds a device, no pass changes it or constructs anything. |
| LegacyFirmware.DeepSleepAfterHealth | src/firmware.py:87-100 | A pass that powers down has published the health report and collected garbage, and leaves the connection open. |
| LegacyFirmware.PoweredDownPass | src/firmware.py:74-100 | A pass that powers down made exactly: the connect, the constructor calls, the health publish, the garbage collection and the sleep. |
| LegacyFirmware.PowersDownOnce | src/firmware.py:99-100 | A pass that powers down deep-sleeps once, as its last call. |
| LegacyFirmware.RunPowersDownLast | src/firmware.py:73-112 | The whole loop never does anything after `machine.deepsleep()`. |
| ConfigScript.FormatLiteral | src/main.py:98 | `str.format` passes text without braces through unchanged. |
| ConfigScript.DefaultTopicBase | src/main.py:98 | The default `topic_base` "esp/{0}" formats to `esp/<machine id>`. |
| ConfigScript.FormatEscapes | src/main.py:98 | `{{` and `}}` format to single braces. |
| ConfigScript.FormatRaises | src/main.py:98 | Mixing automatic and manual field numbering, asking for a second argument, naming a keyword, and an unmatched brace each make `format` raise. |
| ConfigScript.ReaderCall | src/main.py:100-103 | An entry's reader is called exactly for a dict whose `function` (default `read_<name>`) names a reader and whose keyword arguments are exactly `pin`, and it is that reader. |
| ConfigScript.FunctionNeedsArgs | src/main.py:101-103 | An entry that names its `function` without a separate `args` raises, because `function` is passed on to the reader. |
| ConfigScript.Entry | src/main.py:100-104 | An entry outside the section does nothing. An entry that goes through had its pin and driver created, a successful reading and a configured server. The sensor is measured only after the reader resolved and its pin and driver were created. |
| ConfigScript.EntryGoesThrough | src/main.py:100-104 | An entry of the section goes through exactly when its reader resolves, its pin and driver are created, the reading succeeds, the publish section names a server and one of the three publish attempts is delivered. |
| ConfigScript.EntryPublishes | src/main.py:100-104 | An entry that goes through measures first, and ends by publishing its reading to `<topic_base>/<name>` and disconnecting. |
| ConfigScript.Entries | src/main.py:100-104 | The loop over the `read` section either completes or raises. |
| ConfigScript.EntriesPublishAll | src/main.py:100-104 | When the loop completes, every listed entry had a reading and published it. |
| ConfigScript.DeepSleepFor | src/main.py:62-67 | `deepsleep(t)` arms the alarm and powers down exactly for a numeric `t`. Otherwise it raises. |
| ConfigScript.Parsed | src/main.py:86-93 | `parse_config` succeeds exactly for a readable dict, empty list or empty string. A dict adds its keys to `CONFIG`, and the other two leave it unchanged. |
| ConfigScript.ReparseIdempotent | src/main.py:86-93 | Merging the same file a second time changes nothing. |
| ConfigScript.Work | src/main.py:96-106 | After parsing, `main()` either powers down or raises. It never returns normally. |
| ConfigScript.EntriesContinue | src/main.py:100-104 | The loop over the section goes through exactly when every entry it visits does. |
| ConfigScript.EveryEntryContinues | src/main.py:100-104 | Whatever order the dict visits its keys in, the loop goes through exactly when every entry of the section goes through. |
| ConfigScript.WorkPowersDown | src/main.py:96-106 | `main()` after parsing reaches `deepsleep` exactly when `topic_base` is a string that formats, `read` is a dict whose every entry goes through and `sleep_time` is a number. |
| ConfigScript.Recover | src/main.py:113-119 | The outer handler retries exactly when the merged `exception_raise` is falsy and `exception_wait` is a number, after a pause of that many seconds. |
| ConfigScript.Script.constructor | src/main.py:11-18 | `CONFIG` starts as the module's defaults. |
| ConfigScript.Script.ParseConfig | src/main.py:86-93 | `parse_config` merges the file into `CONFIG` in place, or leaves it unchanged and raises. |
| ConfigScript.Script.CallMain | src/main.py:96-106 | One call of `main()` updates `CONFIG` and the call log exactly as `MainCall` specifies. |
| ConfigScript.Script.Pass | src/main.py:110-119 | One pass of the outer loop updates `CONFIG` and the call log exactly as `LoopPass` specifies. |
| ConfigScript.ReadEntry | src/main.py:100-104 | One iteration of the loop computes exactly `Entry`. |
| ConfigScript.ReadAll | src/main.py:100-104 | The loop over the `read` section computes exactly `Entries`. |
| ConfigScript.Boot | src/main.py:109-119 | The outer loop from the default `CONFIG` makes exactly the calls of `Boots`. |
| ConfigScript.ConfigKeysKept | src/main.py:93 | A pass never removes a configuration key, because `CONFIG` only grows. |
| ConfigScript.DefaultsNeverRetry | src/main.py:13 | With the default `exception_raise` (True), and a file that does not override it, the outer loop never goes round again. |
| ConfigScript.PowersDownAfterEveryEntry | src/main.py:96-106 | A pass that powers down has published a reading for every entry of the merged `read` section, to `<topic_base>/<name>`. It ends with the alarm for `sleep_time` and the deep sleep. |
| ConfigScript.PowersDownExactly | src/main.py:96-117 | A pass of the outer loop powers down exactly when the file is read and merged and the merged configuration lets `main()` reach `deepsleep`. The `except` clause never powers down. |

## Left out

- Hardware (pins, PWM, the RTC, timers, interrupts) is replaced by fields and actions. Timer periods (`interval`) and the IRQ trigger are not modelled. Any truthy value is accepted as a `pin`, a `pwm` section, or a `freq` or `duty`. `machine.Pin`, `machine.PWM` and `PWM.freq`/`PWM.duty` would raise on a non-integer (src/lib/device.py:44-49, 133 and 136; src/device.py:28-29). Capabilities.SetPwmField, Endpoint.PinOf and Endpoint.PwmOf store the value as given.
- Integer arithmetic only. The floating-point `rps` and `rpm` of `sample_rpm` and `sleep_time / 1000` are omitted. Whole seconds from `time.time()` are kept.
- JSON encoding: `json.dumps`, `bytes(..., 'ascii')` and `str(data)` are not modelled. Messages carry the decoded value.
- Printing, `sys.print_exception`, `micropython.mem_info()` and `socket.print_pcbs()` are omitted.
- File I/O: the configuration file is its decoded value, or None when opening or decoding it raises.
- Dict iteration order is an input. For src/main.py it is a function of the dict's contents that visits every key exactly once (`ConfigScript.DictOrder`). For the supervisors it is a list of the `device` keys.
- The broker address, the client ids, `keepalive` and the sensor pin are not in the action trace.
- `umqtt` semantics are not modelled: a `disconnect()` on a client that was never connected is a call like any other.
- The `Device` constructor's own `connect(clean_session=True)` is not logged. Whether construction raises is an input to the supervisor.
- Endpoint.Construct, LegacyEndpoint.Device.Configure: the client's `connect(clean_session=True)` (src/lib/device.py:30) and `subscribe()` (src/lib/device.py:86, src/device.py:60) are taken to return. The "raises exactly when" statements of construction hold only under that assumption. A client that raises there is not modelled. In src/device.py, `set_callback` (line 59) runs before `subscribe`. A raising `subscribe` would leave the half-built device as the shared client's callback, and the model does not capture that.
- `read_ds18x20`'s bus scan and per-sensor keys are not modelled. Its result is the driver's decoded reading.
- Endpoint.ReadSetting, Endpoint.SubscribeSetting, Endpoint.SampleBound: `getattr(self, name)` resolves only the read, write and sample functions of the class. A read or subscribe section naming another method (such as `read_data`) raises at construction in the model. Python binds that method. A `function_sample` naming another method leaves no sample function in the model. Python calls that method from `read_data`. The same holds for the LegacyEndpoint functions of the same names.
- `globals().get(...)` in src/main.py resolves only `read_dht11` and `read_dht22`. Any other name raises in the model.
- Capabilities.TopicFor: a non-string `topic_base` is treated as raising. Python would format its `str()`.
- Registry.HealthTopic: a list or dict `topic_base` is treated as giving no health topic. Python would format its `repr` text.
- Capabilities.WriteStatusEffect: MicroPython's base-0 `int()` skips underscores between digits, as in `1_0`. `ParseInt` refuses them. Signs, the `0x`/`0o`/`0b` prefixes and surrounding whitespace are modelled.
- ConfigScript.Format: conversions (`{0!r}`), format specs (`{0:>8}`) and attribute or index lookups in a field are treated as raising. Python would apply them.
- Endpoint.PublishSetting: `__init__` stores each topic back into the configuration dict as bytes (src/lib/device.py:67 and 81). The model leaves the configuration unchanged. A later construction from the same dict therefore sees the original topic. That happens after a pass that raised while the registry was still empty.
- Endpoint.ReadSetting: a timer needs only an `interval` key. A value that makes the timer set-up raise, such as a non-number, is accepted. The same holds for the publish and subscribe intervals.
- Endpoint.PollEvent: a `check_msg()` that raises, such as on a dropped connection, is not modelled. A poll finds one message or none. The same holds for LegacyEndpoint.Device.SubscribeData.
- A client that raises is modelled by how many publishes it accepts in one call. What reaches the broker is not distinguished from what was handed to the client.
- ConfigScript.Parsed: a non-empty list or string as the configuration file is treated as raising. `dictmerge` would iterate over it instead.
- src/boot.py (Wi-Fi set-up) and the `Config` class's file name are not part of this model. `Config.parse_config` in both firmware files returns the file's contents without merging defaults, so the supervisors take `conf` as given.
- A keyboard interrupt is not modelled. `except Exception` does not catch it.
