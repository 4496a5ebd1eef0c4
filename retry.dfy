/** The bounded retry loops of the stand-alone scripts: `read_dht11` in main.py
    and `publish_data` in main.py and src/main.py (the two `publish_data` are
    the same code). Each makes at most three attempts, stops at the first one
    that succeeds, sleeps three seconds after every failed attempt but the
    third, and re-raises the third failure. The outcome of the k-th attempt
    (counting from 0) is an input of the model. */
module Retry {
  import opened JsonValue
  import opened Effects

  const MaxAttempts: nat := 3
  const RetryPause: Action := PauseSeconds(Int(3))

  /** The first attempt at or after `from` that succeeds, or MaxAttempts. */
  function FirstOk(ok: nat -> bool, from: nat): (k: nat)
    requires from <= MaxAttempts
    ensures from <= k <= MaxAttempts
    ensures forall j :: from <= j < k ==> !ok(j)
    ensures k < MaxAttempts ==> ok(k)
    decreases MaxAttempts - from
  {
    if from == MaxAttempts then MaxAttempts
    else if ok(from) then from
    else FirstOk(ok, from + 1)
  }

  /** How many attempts the loop makes. */
  function Attempts(ok: nat -> bool): (n: nat)
    ensures 1 <= n <= MaxAttempts
    ensures FirstOk(ok, 0) < MaxAttempts ==> n == FirstOk(ok, 0) + 1
  {
    var k := FirstOk(ok, 0);
    if k < MaxAttempts then k + 1 else MaxAttempts
  }

  /** The calls of attempts 0 .. n-1, with a pause between consecutive ones. */
  function Join(calls: nat -> seq<Action>, n: nat): seq<Action>
  {
    if n == 0 then []
    else if n == 1 then calls(0)
    else Join(calls, n - 1) + [RetryPause] + calls(n - 1)
  }

  /** The loop sleeps exactly once between two attempts and never after the
      last one: n attempts carry n - 1 pauses. */
  lemma {:induction false} JoinPauses(calls: nat -> seq<Action>, n: nat)
    requires n >= 1
    requires forall i :: 0 <= i < n ==> RetryPause !in calls(i)
    ensures Count(Join(calls, n), RetryPause) == n - 1
  {
    if n > 1 {
      JoinPauses(calls, n - 1);
      CountAppend(Join(calls, n - 1), [RetryPause], RetryPause);
      CountAppend(Join(calls, n - 1) + [RetryPause], calls(n - 1), RetryPause);
    }
  }

  /** Every attempt of `read_dht11` is one `measure()` call. */
  function MeasureCall(i: nat): seq<Action> {
    [Measure]
  }

  function Measured(measure: nat -> Option<Json>): nat -> bool {
    (i: nat) => measure(i).Some?
  }

  /** `read_dht11`: `measure(k)` is the reading of the k-th `d.measure()`, or
      None when it raises. The result is None when the third failure is
      re-raised. */
  method ReadDht11(measure: nat -> Option<Json>) returns (reading: Option<Json>, trace: seq<Action>)
    ensures trace == Join(MeasureCall, Attempts(Measured(measure)))
    ensures reading.Some? <==> FirstOk(Measured(measure), 0) < MaxAttempts
    ensures reading.Some? ==> reading == measure(FirstOk(Measured(measure), 0))
  {
    var retry := 0;
    trace := [];
    while retry < MaxAttempts
      invariant retry < MaxAttempts
      invariant forall j :: 0 <= j < retry ==> !Measured(measure)(j)
      invariant trace == if retry == 0 then [] else Join(MeasureCall, retry) + [RetryPause]
      decreases MaxAttempts - retry
    {
      trace := trace + MeasureCall(retry);
      var r := measure(retry);
      if r.Some? {
        reading := r;
        return;
      }
      retry := retry + 1;
      if retry == MaxAttempts {
        reading := None;
        return;
      }
      trace := trace + [RetryPause];
    }
    reading := None;
  }

  /** `read_dht11` calls `measure()` once per attempt. */
  lemma {:induction false} MeasuresCounted(n: nat)
    ensures Count(Join(MeasureCall, n), Measure) == n
  {
    if n > 1 {
      MeasuresCounted(n - 1);
      CountAppend(Join(MeasureCall, n - 1), [RetryPause], Measure);
      CountAppend(Join(MeasureCall, n - 1) + [RetryPause], MeasureCall(n - 1), Measure);
    }
  }

  /** How one connect / publish / disconnect attempt of `publish_data` goes. */
  datatype Attempt = ConnectFails | PublishFails | DisconnectFails | Delivered

  /** The calls one attempt makes, the failing one included. `c.connect()`
      takes umqtt's default `clean_session=True`. */
  function AttemptCalls(m: Message, a: Attempt): (r: seq<Action>)
    ensures 1 <= |r| <= 3 && r[0] == Connect(Bool(true))
    ensures forall x :: x in r ==> x == Connect(Bool(true)) || x == Publish(m) || x == Disconnect
  {
    match a
    case ConnectFails => [Connect(Bool(true))]
    case PublishFails => [Connect(Bool(true)), Publish(m)]
    case _ => [Connect(Bool(true)), Publish(m), Disconnect]
  }

  function PublishCalls(m: Message, attempt: nat -> Attempt): nat -> seq<Action> {
    (i: nat) => AttemptCalls(m, attempt(i))
  }

  function DeliveredAt(attempt: nat -> Attempt): nat -> bool {
    (i: nat) => attempt(i) == Delivered
  }

  /** `publish_data(server, topic, data)`: `attempt(k)` says how the k-th
      attempt goes. `delivered` is false when the third failure is re-raised. */
  method PublishData(m: Message, attempt: nat -> Attempt) returns (delivered: bool, trace: seq<Action>)
    ensures trace == Join(PublishCalls(m, attempt), Attempts(DeliveredAt(attempt)))
    ensures delivered <==> FirstOk(DeliveredAt(attempt), 0) < MaxAttempts
  {
    var retry := 0;
    trace := [];
    while retry < MaxAttempts
      invariant retry < MaxAttempts
      invariant forall j :: 0 <= j < retry ==> !DeliveredAt(attempt)(j)
      invariant trace == if retry == 0 then [] else Join(PublishCalls(m, attempt), retry) + [RetryPause]
      decreases MaxAttempts - retry
    {
      trace := trace + AttemptCalls(m, attempt(retry));
      if attempt(retry) == Delivered {
        delivered := true;
        return;
      }
      retry := retry + 1;
      if retry == MaxAttempts {
        delivered := false;
        return;
      }
      trace := trace + [RetryPause];
    }
    delivered := false;
  }

  /** At most three connects, one per attempt, and the message is handed to
      the client once per attempt that got past `connect()`. */
  lemma {:induction false} PublishConnects(m: Message, attempt: nat -> Attempt, n: nat)
    ensures Count(Join(PublishCalls(m, attempt), n), Connect(Bool(true))) == n
  {
    if n == 1 {
      assert Join(PublishCalls(m, attempt), 1) == AttemptCalls(m, attempt(0));
    } else if n > 1 {
      PublishConnects(m, attempt, n - 1);
      var pre := Join(PublishCalls(m, attempt), n - 1);
      CountAppend(pre, [RetryPause], Connect(Bool(true)));
      CountAppend(pre + [RetryPause], AttemptCalls(m, attempt(n - 1)), Connect(Bool(true)));
      assert Count(AttemptCalls(m, attempt(n - 1)), Connect(Bool(true))) == 1;
    }
  }

  /** `publish_data` only talks to the client and pauses between attempts. */
  lemma {:induction false} PublishCallsOnly(m: Message, attempt: nat -> Attempt, n: nat)
    ensures forall a :: a in Join(PublishCalls(m, attempt), n) ==>
              a == Connect(Bool(true)) || a == Publish(m) || a == Disconnect || a == RetryPause
  {
    if n == 1 {
      assert Join(PublishCalls(m, attempt), 1) == AttemptCalls(m, attempt(0));
    } else if n > 1 {
      PublishCallsOnly(m, attempt, n - 1);
      assert Join(PublishCalls(m, attempt), n)
          == Join(PublishCalls(m, attempt), n - 1) + [RetryPause] + AttemptCalls(m, attempt(n - 1));
    }
  }

  /** A successful `publish_data` ends with the publish and the disconnect of
      the attempt that delivered: nothing is attempted after the first success. */
  lemma PublishEndsAtSuccess(m: Message, attempt: nat -> Attempt)
    requires FirstOk(DeliveredAt(attempt), 0) < MaxAttempts
    ensures var t := Join(PublishCalls(m, attempt), Attempts(DeliveredAt(attempt)));
            |t| > 1 && t[|t| - 2] == Publish(m) && t[|t| - 1] == Disconnect
  {
    var n := Attempts(DeliveredAt(attempt));
    assert DeliveredAt(attempt)(n - 1);
    var last := AttemptCalls(m, attempt(n - 1));
    assert last == [Connect(Bool(true)), Publish(m), Disconnect];
    var t := Join(PublishCalls(m, attempt), n);
    if n > 1 {
      var pre := Join(PublishCalls(m, attempt), n - 1) + [RetryPause];
      assert t == pre + last;
      assert t[|t| - 2] == last[1] && t[|t| - 1] == last[2];
    } else {
      assert t == last;
    }
  }
}
