/** The first, single-sensor script main.py: it reads the DHT11 on pin 14
    (up to three attempts), publishes the reading to `esp/<flash id>/dht11`
    on the broker `curumo.domecek` (up to three attempts), and deep-sleeps
    for a minute. `main()` runs once; any exception that escapes it ends the
    script. */
module DhtScript {
  import opened JsonValue
  import opened Effects
  import opened Power
  import opened Retry
  import Capabilities

  const SleepMs: Json := Int(60000)

  /** `"esp/{0}".format(esp.flash_id())` followed by `/dht11`. */
  function Topic(flashId: nat): string {
    "esp/" + Capabilities.Decimal(flashId) + "/dht11"
  }

  /** Two boards with different flash ids never share a topic. */
  lemma TopicsDiffer(a: nat, b: nat)
    requires a != b
    ensures Topic(a) != Topic(b)
  {
    if Topic(a) == Topic(b) {
      var da, db := Capabilities.Decimal(a), Capabilities.Decimal(b);
      assert |da| == |db|;
      assert da == Topic(a)[4..4 + |da|];
      assert db == Topic(b)[4..4 + |db|];
      Capabilities.DecimalRoundTrip(a);
      Capabilities.DecimalRoundTrip(b);
    }
  }

  /** The message the script publishes for a reading. */
  function ReadingMessage(flashId: nat, reading: Json): Message {
    Message(Topic(flashId), reading, false)
  }

  /** What `main()` does: `measure(k)` is the result of the k-th
      `d.measure()` (None when it raises) and `attempt(k)` how the k-th
      publish attempt goes. */
  function Run(flashId: nat, measure: nat -> Option<Json>, attempt: nat -> Attempt): (r: Outcome)
    ensures r.end == PoweredDown || r.end == Propagated
    ensures r.end == PoweredDown <==>
              FirstOk(Measured(measure), 0) < MaxAttempts && FirstOk(DeliveredAt(attempt), 0) < MaxAttempts
  {
    var readCalls := Join(MeasureCall, Attempts(Measured(measure)));
    var k := FirstOk(Measured(measure), 0);
    if k == MaxAttempts then Outcome(readCalls, Propagated)
    else
      var m := ReadingMessage(flashId, measure(k).value);
      var calls := Join(PublishCalls(m, attempt), Attempts(DeliveredAt(attempt)));
      if FirstOk(DeliveredAt(attempt), 0) == MaxAttempts then Outcome(readCalls + calls, Propagated)
      else Outcome(readCalls + calls + [ArmAlarm(SleepMs), DeepSleep], PoweredDown)
  }

  /** `main()` */
  method Execute(flashId: nat, measure: nat -> Option<Json>, attempt: nat -> Attempt) returns (trace: seq<Action>, end: End)
    ensures Outcome(trace, end) == Run(flashId, measure, attempt)
  {
    var reading, readCalls := ReadDht11(measure);
    if reading.None? {
      return readCalls, Propagated;
    }
    var m := ReadingMessage(flashId, reading.value);
    var delivered, calls := PublishData(m, attempt);
    if !delivered {
      return readCalls + calls, Propagated;
    }
    trace := readCalls + calls + [ArmAlarm(SleepMs), DeepSleep];
    end := PoweredDown;
  }

  /** A board that goes to sleep has published the first reading that
      succeeded, to its own topic, and arms a one-minute alarm right before
      powering down. */
  lemma PowersDownAfterPublish(flashId: nat, measure: nat -> Option<Json>, attempt: nat -> Attempt)
    requires Run(flashId, measure, attempt).end == PoweredDown
    ensures var k := FirstOk(Measured(measure), 0);
            var t := Run(flashId, measure, attempt).actions;
            k < MaxAttempts && measure(k).Some?
            && (forall j :: 0 <= j < k ==> measure(j).None?)
            && Publish(ReadingMessage(flashId, measure(k).value)) in t
            && |t| >= 4 && t[|t| - 3] == Disconnect && t[|t| - 2] == ArmAlarm(SleepMs) && t[|t| - 1] == DeepSleep
  {
    var k := FirstOk(Measured(measure), 0);
    FirstReading(measure);
    var m := ReadingMessage(flashId, measure(k).value);
    var readCalls := Join(MeasureCall, Attempts(Measured(measure)));
    var calls := Join(PublishCalls(m, attempt), Attempts(DeliveredAt(attempt)));
    PublishEndsAtSuccess(m, attempt);
    EndsWithSleep(readCalls + calls, m);
  }

  /** The reading `read_dht11` returns is the first one that succeeded. */
  lemma FirstReading(measure: nat -> Option<Json>)
    requires FirstOk(Measured(measure), 0) < MaxAttempts
    ensures var k := FirstOk(Measured(measure), 0);
            measure(k).Some? && forall j :: 0 <= j < k ==> measure(j).None?
  {
    var k := FirstOk(Measured(measure), 0);
    assert Measured(measure)(k);
    forall j | 0 <= j < k
      ensures measure(j).None?
    {
      assert !Measured(measure)(j);
    }
  }

  /** Calls that end with the publish and the disconnect, then the alarm and
      the deep sleep. */
  lemma EndsWithSleep(pre: seq<Action>, m: Message)
    requires |pre| > 1 && pre[|pre| - 2] == Publish(m) && pre[|pre| - 1] == Disconnect
    ensures var t := pre + [ArmAlarm(SleepMs), DeepSleep];
            Publish(m) in t && |t| >= 4 && t[|t| - 3] == Disconnect && t[|t| - 2] == ArmAlarm(SleepMs) && t[|t| - 1] == DeepSleep
  {
    var t := pre + [ArmAlarm(SleepMs), DeepSleep];
    assert t[|pre| - 2] == Publish(m);
  }

  /** `read_dht11` only measures and pauses. */
  lemma {:induction false} ReadsOnlyMeasure(n: nat)
    ensures forall a :: a in Join(MeasureCall, n) ==> a == Measure || a == RetryPause
  {
    if n > 1 {
      ReadsOnlyMeasure(n - 1);
      assert Join(MeasureCall, n) == Join(MeasureCall, n - 1) + [RetryPause] + [Measure];
    }
  }

  /** The sensor is asked once per read attempt, at most three times,
      however the attempts go. */
  lemma MeasuresBounded(flashId: nat, measure: nat -> Option<Json>, attempt: nat -> Attempt)
    ensures Count(Run(flashId, measure, attempt).actions, Measure) == Attempts(Measured(measure)) <= MaxAttempts
  {
    var n := Attempts(Measured(measure));
    var readCalls := Join(MeasureCall, n);
    MeasuresCounted(n);
    var k := FirstOk(Measured(measure), 0);
    if k < MaxAttempts {
      var m := ReadingMessage(flashId, measure(k).value);
      var calls := Join(PublishCalls(m, attempt), Attempts(DeliveredAt(attempt)));
      PublishNeverMeasures(m, attempt, Attempts(DeliveredAt(attempt)));
      CountAppend(readCalls, calls, Measure);
      if FirstOk(DeliveredAt(attempt), 0) < MaxAttempts {
        CountAppend(readCalls + calls, [ArmAlarm(SleepMs), DeepSleep], Measure);
      }
    }
  }

  /** `read_dht11` never touches the broker. */
  lemma ReadsNeverConnect(n: nat)
    ensures Connect(Bool(true)) !in Join(MeasureCall, n)
  {
    ReadsOnlyMeasure(n);
  }

  /** `publish_data` never asks the sensor. */
  lemma PublishNeverMeasures(m: Message, attempt: nat -> Attempt, n: nat)
    ensures Measure !in Join(PublishCalls(m, attempt), n)
  {
    PublishCallsOnly(m, attempt, n);
  }

  /** The broker is connected at most three times, however the attempts go. */
  lemma ConnectsBounded(flashId: nat, measure: nat -> Option<Json>, attempt: nat -> Attempt)
    ensures Count(Run(flashId, measure, attempt).actions, Connect(Bool(true))) <= MaxAttempts
  {
    var readCalls := Join(MeasureCall, Attempts(Measured(measure)));
    ReadsNeverConnect(Attempts(Measured(measure)));
    var k := FirstOk(Measured(measure), 0);
    if k < MaxAttempts {
      var m := ReadingMessage(flashId, measure(k).value);
      var p := Attempts(DeliveredAt(attempt));
      var calls := Join(PublishCalls(m, attempt), p);
      PublishConnects(m, attempt, p);
      if FirstOk(DeliveredAt(attempt), 0) < MaxAttempts {
        CountAround(readCalls, calls, [ArmAlarm(SleepMs), DeepSleep], Connect(Bool(true)));
      } else {
        CountAround(readCalls, calls, [], Connect(Bool(true)));
        assert readCalls + calls + [] == readCalls + calls;
      }
    }
  }
}
