/** The observable effects of the firmware, recorded in order in place of the
    hardware, the clock and the MQTT client: what was called, with what. */
module Effects {
  import opened JsonValue

  /** One MQTT publish: topic, payload (before JSON encoding) and retain flag. */
  datatype Message = Message(topic: string, payload: Json, retain: bool)

  datatype Action =
    | Connect(clean: Json)            // MQTTClient.connect(clean_session=...)
    | Publish(msg: Message)           // MQTTClient.publish
    | Disconnect                      // MQTTClient.disconnect
    | Measure                         // a sensor driver's blocking measure()
    | PauseSeconds(seconds: Json)     // time.sleep(seconds)
    | DelayMs(ms: Json)               // time.sleep(ms / 1000) of the `wait` mode
    | InitDevice(name: string, args: map<string, Json>)  // Device(name, **args)
    | GcCollect                       // gc.collect()
    | ArmAlarm(ms: Json)              // RTC wake alarm armed for `ms`
    | DeepSleep                       // machine.deepsleep()
    | Idle                            // machine.idle()
    | LightSleep                      // machine.sleep()
    | Reset                           // machine.reset()
    | Exit                            // sys.exit()

  /** How a supervised run of one loop iteration ends. */
  datatype End =
    | Continue      // the loop goes round again
    | Propagated    // an exception leaves the loop
    | Restarted     // machine.reset() was called
    | Exited        // sys.exit() was called
    | PoweredDown   // machine.deepsleep() was called

  /** Number of occurrences of `a` in `t`. */
  function Count(t: seq<Action>, a: Action): (n: nat)
    ensures n <= |t|
    ensures n == 0 <==> a !in t
  {
    if t == [] then 0 else (if t[0] == a then 1 else 0) + Count(t[1..], a)
  }

  lemma {:induction false} CountAppend(s: seq<Action>, t: seq<Action>, a: Action)
    ensures Count(s + t, a) == Count(s, a) + Count(t, a)
  {
    if s == [] {
      assert s + t == t;
    } else {
      assert (s + t)[1..] == s[1..] + t;
      CountAppend(s[1..], t, a);
    }
  }

  /** Calls that never make `a` around a middle part count only the middle. */
  lemma CountAround(pre: seq<Action>, mid: seq<Action>, post: seq<Action>, a: Action)
    requires a !in pre && a !in post
    ensures Count(pre + mid + post, a) == Count(mid, a)
  {
    CountAppend(pre, mid, a);
    CountAppend(pre + mid, post, a);
  }
}
