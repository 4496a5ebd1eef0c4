/** The stand-alone deep-sleep script src/main.py. `main()` merges the file
    `<machine id>.json` into the module's `CONFIG` in place, reads every
    entry of the `read` section with the function it names, publishes each
    reading to `<topic_base>/<name>` with up to three attempts, and deep-sleeps
    for `sleep_time`. The `while True` loop around `main()` re-raises unless
    `CONFIG` (the merged one) disables `exception_raise`, and otherwise waits
    `exception_wait` seconds and calls `main()` again. */
module ConfigScript {
  import opened JsonValue
  import opened Effects
  import opened Power
  import opened ConfigMerge
  import Capabilities
  import Retry

  /** `CONFIG` as the module defines it. */
  const TopicFormat: string := "esp/{0}"
  const Defaults: map<string, Json> := map[
    "sleep_time" := Int(60000),
    "exception_raise" := Bool(true),
    "exception_wait" := Int(30),
    "publish" := Obj(map["topic_base" := Str(TopicFormat)])]

  /** How `str.format` has numbered the replacement fields so far: not yet,
      automatically (`{}`, the next index), or by explicit index (`{0}`). */
  datatype Numbering = Unset | Auto(next: nat) | Manual

  function Prepend(p: string, r: Option<string>): (t: Option<string>)
    ensures t.Some? <==> r.Some?
  {
    if r.Some? then Some(p + r.value) else None
  }

  /** The position of the first brace at or after `k`, or `|s|`. */
  function FieldEnd(s: string, k: nat): (e: nat)
    requires k <= |s|
    ensures k <= e <= |s|
    ensures e < |s| ==> s[e] == '{' || s[e] == '}'
    ensures forall j :: k <= j < e ==> s[j] != '{' && s[j] != '}'
    decreases |s| - k
  {
    if k == |s| || s[k] == '{' || s[k] == '}' then k else FieldEnd(s, k + 1)
  }

  /** `s.format(arg)` with the single positional argument `arg`, from the
      numbering state `mode`; None when it raises. `{{` and `}}` stand for
      single braces. A field `{}` takes the next automatic index, a field of
      digits that index; mixing the two raises ValueError, any index but 0
      raises IndexError, any other field name KeyError, and an unmatched
      brace ValueError. */
  function FormatFrom(s: string, arg: string, mode: Numbering): Option<string>
    decreases |s|
  {
    if s == [] then Some([])
    else if s[0] == '{' then
      if |s| >= 2 && s[1] == '{' then Prepend("{", FormatFrom(s[2..], arg, mode))
      else
        var e := FieldEnd(s, 1);
        if e == |s| || s[e] == '{' then None
        else
          var field := s[1..e];
          var index: Option<(nat, Numbering)> :=
            if field == [] then
              (if mode.Manual? then None
               else var i := if mode.Auto? then mode.next else 0; Some((i, Auto(i + 1))))
            else if forall j :: 0 <= j < |field| ==> Capabilities.IsDigit(field[j]) then
              (if mode.Auto? then None else Some((Capabilities.DigitsValue(field), Manual)))
            else None;
          if index.None? || index.value.0 != 0 then None
          else Prepend(arg, FormatFrom(s[e + 1..], arg, index.value.1))
    else if s[0] == '}' then
      if |s| >= 2 && s[1] == '}' then Prepend("}", FormatFrom(s[2..], arg, mode)) else None
    else Prepend([s[0]], FormatFrom(s[1..], arg, mode))
  }

  /** `s.format(arg)`, None when it raises. */
  function Format(s: string, arg: string): Option<string> {
    FormatFrom(s, arg, Unset)
  }

  /** Text without a brace passes through `format` unchanged. */
  lemma {:induction false} FormatLiteral(p: string, rest: string, arg: string, mode: Numbering)
    requires '{' !in p && '}' !in p
    ensures FormatFrom(p + rest, arg, mode) == Prepend(p, FormatFrom(rest, arg, mode))
    decreases |p|
  {
    if p != [] {
      assert (p + rest)[0] == p[0];
      assert (p + rest)[1..] == p[1..] + rest;
      FormatLiteral(p[1..], rest, arg, mode);
      assert [p[0]] + p[1..] == p;
      if FormatFrom(rest, arg, mode).Some? {
        assert [p[0]] + (p[1..] + FormatFrom(rest, arg, mode).value) == p + FormatFrom(rest, arg, mode).value;
      }
    } else {
      assert p + rest == rest;
      if FormatFrom(rest, arg, mode).Some? {
        assert p + FormatFrom(rest, arg, mode).value == FormatFrom(rest, arg, mode).value;
      }
    }
  }

  /** The default `topic_base` is "esp/<machine id>". */
  lemma DefaultTopicBase(machineId: string)
    ensures Format(TopicFormat, machineId) == Some("esp/" + machineId)
  {
    var field := "{0}";
    assert TopicFormat == "esp/" + field;
    FormatLiteral("esp/", field, machineId, Unset);
    assert FieldEnd(field, 1) == 2;
    assert field[1..2] == "0" && Capabilities.DigitsValue("0") == 0;
    assert field[3..] == [];
    assert FormatFrom(field, machineId, Unset) == Some(machineId + []);
    assert machineId + [] == machineId;
  }

  /** Doubled braces are literal braces, and a brace-free text around them
      stays as it is. */
  lemma FormatEscapes(p: string, arg: string)
    requires '{' !in p && '}' !in p
    ensures Format("{{" + p + "}}", arg) == Some("{" + p + "}")
  {
    var s := "{{" + p + "}}";
    assert s[2..] == p + "}}";
    FormatLiteral(p, "}}", arg, Unset);
    assert "}}"[2..] == [];
    assert FormatFrom("}}", arg, Unset) == Some("}" + []);
    assert "{" + (p + ("}" + [])) == "{" + p + "}";
  }

  /** A format string that numbers one field automatically and another by
      hand raises, as does one that asks for a second argument. */
  lemma FormatRaises(arg: string)
    ensures Format("{}/{0}", arg).None?
    ensures Format("{1}", arg).None?
    ensures Format("{x}", arg).None?
    ensures Format("{", arg).None? && Format("}", arg).None?
  {
    var s := "{}/{0}";
    assert FieldEnd(s, 1) == 1;
    assert s[2..] == "/{0}" && "/{0}"[1..] == "{0}";
    assert FieldEnd("{0}", 1) == 2 && "{0}"[1..2] == "0";
    assert FieldEnd("{1}", 1) == 2 && "{1}"[1..2] == "1";
    assert Capabilities.DigitsValue("1") == 1 by {
      assert "1"[..0] == "";
    }
    assert FieldEnd("{x}", 1) == 2 && "{x}"[1..2] == "x" && !Capabilities.IsDigit('x');
  }

  /** The two sensor readers `globals().get(...)` can usefully return. */
  datatype Reader = ReadDht11 | ReadDht22

  function ReaderNamed(id: Json): Option<Reader> {
    if id == Str("read_dht11") then Some(ReadDht11)
    else if id == Str("read_dht22") then Some(ReadDht22)
    else None
  }

  /** Entry `name: args` of the `read` section: the reader named by
      `function` (default `read_<name>`), called with the keyword arguments
      `args.get('args', args)`, which must be exactly `pin`. None when this
      raises before the sensor is touched. */
  function ReaderCall(name: string, args: Json): (r: Option<Reader>)
    ensures r.Some? ==> args.Obj?
    ensures r.Some? ==> var kwargs := GetOr(args.fields, "args", args); kwargs.Obj? && kwargs.fields.Keys == {"pin"}
    ensures r.Some? ==> r == ReaderNamed(GetOr(args.fields, "function", Str("read_" + name)))
    ensures args.Obj? && ReaderNamed(GetOr(args.fields, "function", Str("read_" + name))).Some?
            && GetOr(args.fields, "args", args).Obj? && GetOr(args.fields, "args", args).fields.Keys == {"pin"}
            ==> r.Some?
  {
    if !args.Obj? then None
    else
      var f := ReaderNamed(GetOr(args.fields, "function", Str("read_" + name)));
      var kwargs := GetOr(args.fields, "args", args);
      if f.None? || !kwargs.Obj? || kwargs.fields.Keys != {"pin"} then None
      else f
  }

  /** An entry that names its function but has no separate `args` passes
      `function` on to the reader as a keyword argument, which raises: a
      custom reader needs its pin under `args`. */
  lemma FunctionNeedsArgs(name: string, args: map<string, Json>)
    requires "function" in args && "args" !in args
    ensures ReaderCall(name, Obj(args)).None?
  {
  }

  /** The keys of `dict` in an order its iteration can take: each exactly
      once. */
  ghost predicate IterationOrder(order: seq<string>, dict: map<string, Json>) {
    (forall n :: n in order <==> n in dict)
    && (forall i, j :: 0 <= i < j < |order| ==> order[i] != order[j])
  }

  ghost function SomeOrder(keys: set<string>): (r: seq<string>)
    ensures forall n :: n in r <==> n in keys
    ensures forall i, j :: 0 <= i < j < |r| ==> r[i] != r[j]
  {
    if keys == {} then []
    else
      var k :| k in keys;
      [k] + SomeOrder(keys - {k})
  }

  /** The order in which a dict's `items()` are visited, chosen by the
      interpreter's hash table: any order that visits every key once. */
  type DictOrder = f: map<string, Json> -> seq<string> | forall m :: IterationOrder(f(m), m)
    ghost witness (m: map<string, Json>) => SomeOrder(m.Keys)

  /** What the outside world decides during one call of `main()`: the
      decoded configuration file (None when opening or decoding it raises),
      for each entry whether `machine.Pin` and the driver object are created
      (`built`) and the reading `measure()` yields (None when it raises), how
      each entry's publish attempts go, and the order of the `read` section. */
  datatype Env = Env(file: Option<Json>, built: string -> bool, sensor: string -> Option<Json>,
                     attempts: string -> (nat -> Retry.Attempt), order: DictOrder)

  /** The message `publish_data` sends for entry `name`: the JSON text of the reading. */
  function EntryMessage(topicBase: string, name: string, reading: Json): Message {
    Message(topicBase + "/" + name, reading, false)
  }

  /** Entry `name` of the `read` section goes through: its reader resolves
      and accepts the arguments, the pin and driver are created, `measure()`
      yields a reading, the publish section names a server and one of the
      three publish attempts is delivered. */
  predicate EntryDelivers(publish: map<string, Json>, section: map<string, Json>, name: string, env: Env) {
    name in section && ReaderCall(name, section[name]).Some? && env.built(name)
    && env.sensor(name).Some? && "server" in publish
    && Retry.FirstOk(Retry.DeliveredAt(env.attempts(name)), 0) < Retry.MaxAttempts
  }

  /** One iteration of the loop of `main()`, for entry `name`: resolve and
      call its reader (the pin and driver are created, then one `measure()`),
      read `conf['publish']['server']` and run `publish_data`. A name outside
      the section does nothing. */
  function Entry(publish: map<string, Json>, topicBase: string, section: map<string, Json>,
                 name: string, env: Env): (r: Outcome)
    ensures r.end == Continue || r.end == Propagated
    ensures name !in section ==> r == Outcome([], Continue)
    ensures name in section && r.end == Continue ==> env.built(name) && env.sensor(name).Some? && "server" in publish
    ensures Measure in r.actions ==> name in section && ReaderCall(name, section[name]).Some? && env.built(name)
  {
    if name !in section then Outcome([], Continue)
    else if ReaderCall(name, section[name]).None? || !env.built(name) then Outcome([], Propagated)
    else if env.sensor(name).None? || "server" !in publish then Outcome([Measure], Propagated)
    else
      var m := EntryMessage(topicBase, name, env.sensor(name).value);
      var att := env.attempts(name);
      var calls := Retry.Join(Retry.PublishCalls(m, att), Retry.Attempts(Retry.DeliveredAt(att)));
      Outcome([Measure] + calls, if Retry.FirstOk(Retry.DeliveredAt(att), 0) < Retry.MaxAttempts then Continue else Propagated)
  }

  /** An entry of the section goes through exactly when its reader, pin,
      driver, reading, server and one of its publish attempts all do. */
  lemma EntryGoesThrough(publish: map<string, Json>, topicBase: string, section: map<string, Json>,
                         name: string, env: Env)
    requires name in section
    ensures Entry(publish, topicBase, section, name, env).end == Continue <==> EntryDelivers(publish, section, name, env)
  {
  }

  /** An entry that goes through has handed its reading to the client for
      `<topic_base>/<name>`, as the last publish before the disconnect. */
  lemma EntryPublishes(publish: map<string, Json>, topicBase: string, section: map<string, Json>,
                       name: string, env: Env)
    requires name in section && Entry(publish, topicBase, section, name, env).end == Continue
    ensures var t := Entry(publish, topicBase, section, name, env).actions;
            |t| >= 3 && t[0] == Measure
            && t[|t| - 2] == Publish(EntryMessage(topicBase, name, env.sensor(name).value)) && t[|t| - 1] == Disconnect
  {
    var m := EntryMessage(topicBase, name, env.sensor(name).value);
    var att := env.attempts(name);
    Retry.PublishEndsAtSuccess(m, att);
  }

  /** The `for name, args in conf.get('read', {}).items()` loop over
      `order` (the dict's iteration order), from position `i` on; the first
      exception ends the loop. */
  function Entries(publish: map<string, Json>, topicBase: string, section: map<string, Json>,
                   order: seq<string>, i: nat, env: Env): (r: Outcome)
    requires i <= |order|
    ensures r.end == Continue || r.end == Propagated
    decreases |order| - i
  {
    if i == |order| then Outcome([], Continue)
    else
      var e := Entry(publish, topicBase, section, order[i], env);
      if e.end == Propagated then e
      else After(e.actions, Entries(publish, topicBase, section, order, i + 1, env))
  }

  /** The loop goes through exactly when every entry it visits from
      position `i` on goes through. */
  lemma {:induction false} EntriesContinue(publish: map<string, Json>, topicBase: string, section: map<string, Json>,
                                          order: seq<string>, i: nat, env: Env)
    requires i <= |order|
    ensures Entries(publish, topicBase, section, order, i, env).end == Continue
            <==> forall k :: i <= k < |order| ==> Entry(publish, topicBase, section, order[k], env).end == Continue
    decreases |order| - i
  {
    if i < |order| {
      EntriesContinue(publish, topicBase, section, order, i + 1, env);
    }
  }

  /** `deepsleep(conf['sleep_time'])`: the alarm is armed unconditionally;
      a non-number is refused by the alarm, or at the latest by the
      `sleep_time / 1000` that follows. */
  function DeepSleepFor(sleepTime: Json): (r: Outcome)
    ensures r.end == PoweredDown <==> IsNumber(sleepTime)
    ensures r.end == PoweredDown ==> r.actions == [ArmAlarm(sleepTime), DeepSleep]
    ensures r.end != PoweredDown ==> r == Outcome([], Propagated)
  {
    if IsNumber(sleepTime) then Outcome([ArmAlarm(sleepTime), DeepSleep], PoweredDown)
    else Outcome([], Propagated)
  }

  /** `CONFIG` after `parse_config`; None when reading the file raises.
      `dictmerge` iterates over the decoded value, so an empty array or an
      empty string merges nothing and every other non-object raises. */
  function Parsed(config: map<string, Json>, file: Option<Json>): (r: Option<map<string, Json>>)
    ensures r.Some? <==> file.Some? && (file.value.Obj? || file.value == Arr([]) || file.value == Str(""))
    ensures r.Some? && file.value.Obj? ==> r.value.Keys == config.Keys + file.value.fields.Keys
    ensures r.Some? && !file.value.Obj? ==> r.value == config
  {
    if file.None? then None
    else if file.value.Obj? then Some(Merge(config, file.value.fields))
    else if file.value == Arr([]) || file.value == Str("") then Some(config)
    else None
  }

  /** The configuration `main()` leaves behind and what it does. */
  datatype Turn = Turn(config: map<string, Json>, out: Outcome)

  /** What `main()` does after `parse_config`, with the merged `conf`. */
  function Work(conf: map<string, Json>, machineId: string, env: Env): (r: Outcome)
    ensures r.end == PoweredDown || r.end == Propagated
  {
    var publish := GetOr(conf, "publish", Null);
    if !publish.Obj? || !GetOr(publish.fields, "topic_base", Null).Str? then Outcome([], Propagated)
    else
      var topicBase := Format(publish.fields["topic_base"].s, machineId);
      var section := GetOr(conf, "read", Obj(map[]));
      if topicBase.None? || !section.Obj? then Outcome([], Propagated)
      else
        var e := Entries(publish.fields, topicBase.value, section.fields, env.order(section.fields), 0, env);
        if e.end == Propagated then e
        else After(e.actions, DeepSleepFor(GetOr(conf, "sleep_time", Null)))
  }

  /** One call of `main()` from `CONFIG` = `config`. */
  function MainCall(config: map<string, Json>, machineId: string, env: Env): Turn {
    var parsed := Parsed(config, env.file);
    if parsed.None? then Turn(config, Outcome([], Propagated))
    else Turn(parsed.value, Work(parsed.value, machineId, env))
  }

  /** The `except` clause of the outer loop, reading `CONFIG`. */
  function Recover(config: map<string, Json>): (r: Outcome)
    ensures r.end == Continue || r.end == Propagated
    ensures r.end == Continue <==> !Truthy(GetOr(config, "exception_raise", Bool(true))) && IsNumber(GetOr(config, "exception_wait", Null))
    ensures r.end == Continue ==> r.actions == [PauseSeconds(config["exception_wait"])]
  {
    if Truthy(GetOr(config, "exception_raise", Bool(true))) then Outcome([], Propagated)
    else
      var wait := GetOr(config, "exception_wait", Null);
      if IsNumber(wait) then Outcome([PauseSeconds(wait)], Continue) else Outcome([], Propagated)
  }

  /** One pass of the outer `while True` loop. */
  function LoopPass(config: map<string, Json>, machineId: string, env: Env): Turn {
    var t := MainCall(config, machineId, env);
    if t.out.end == Propagated then Turn(t.config, After(t.out.actions, Recover(t.config))) else t
  }

  /** The outer loop over the calls `envs`, from `CONFIG` = `config`. */
  function Boots(config: map<string, Json>, machineId: string, envs: seq<Env>): Outcome
    decreases |envs|
  {
    if envs == [] then Outcome([], Continue)
    else
      var t := LoopPass(config, machineId, envs[0]);
      if t.out.end != Continue then t.out
      else After(t.out.actions, Boots(t.config, machineId, envs[1..]))
  }

  /** The script's module state: the `CONFIG` dict, which `parse_config`
      updates in place, and the calls made so far. */
  class Script {
    const machineId: string
    var config: map<string, Json>
    var trace: seq<Action>

    constructor (machineId: string)
      ensures this.machineId == machineId && config == Defaults && trace == []
    {
      this.machineId := machineId;
      config := Defaults;
      trace := [];
    }

    /** `parse_config()`: `dictmerge(CONFIG, data)` with the file's contents. */
    method ParseConfig(file: Option<Json>) returns (ok: bool)
      modifies this
      ensures ok == Parsed(old(config), file).Some?
      ensures config == (if ok then Parsed(old(config), file).value else old(config))
      ensures trace == old(trace)
    {
      if file.None? {
        return false;
      }
      match file.value {
        case Obj(fields) =>
          config := DictMerge(config, fields);
          ok := true;
        case _ =>
          ok := file.value == Arr([]) || file.value == Str("");
      }
    }

    /** `main()` */
    method CallMain(env: Env) returns (end: End)
      modifies this
      ensures var t := MainCall(old(config), machineId, env);
              config == t.config && trace == old(trace) + t.out.actions && end == t.out.end
    {
      var ok := ParseConfig(env.file);
      if !ok {
        return Propagated;
      }
      var publish := GetOr(config, "publish", Null);
      if !publish.Obj? || !GetOr(publish.fields, "topic_base", Null).Str? {
        return Propagated;
      }
      var topicBase := Format(publish.fields["topic_base"].s, machineId);
      var section := GetOr(config, "read", Obj(map[]));
      if topicBase.None? || !section.Obj? {
        return Propagated;
      }
      var e := ReadAll(publish.fields, topicBase.value, section.fields, env.order(section.fields), env);
      if e.end == Propagated {
        trace := trace + e.actions;
        return Propagated;
      }
      var z := DeepSleepFor(GetOr(config, "sleep_time", Null));
      trace := trace + (e.actions + z.actions);
      end := z.end;
    }

    /** One pass of the outer loop: `main()` and, when it raises, the
        `except` clause. */
    method Pass(env: Env) returns (end: End)
      modifies this
      ensures var t := LoopPass(old(config), machineId, env);
              config == t.config && trace == old(trace) + t.out.actions && end == t.out.end
    {
      end := CallMain(env);
      if end == Propagated {
        var h := Recover(config);
        trace := trace + h.actions;
        end := h.end;
      }
    }
  }

  /** One iteration of the `for` loop of `main()`. */
  method ReadEntry(publish: map<string, Json>, topicBase: string, section: map<string, Json>,
                   name: string, env: Env) returns (o: Outcome)
    ensures o == Entry(publish, topicBase, section, name, env)
  {
    if name !in section {
      return Outcome([], Continue);
    }
    var reader := ReaderCall(name, section[name]);
    if reader.None? || !env.built(name) {
      return Outcome([], Propagated);
    }
    var reading := env.sensor(name);
    if reading.None? || "server" !in publish {
      return Outcome([Measure], Propagated);
    }
    var m := EntryMessage(topicBase, name, reading.value);
    var delivered, calls := Retry.PublishData(m, env.attempts(name));
    o := Outcome([Measure] + calls, if delivered then Continue else Propagated);
  }

  /** The `for` loop of `main()` over the entries of the `read` section. */
  method ReadAll(publish: map<string, Json>, topicBase: string, section: map<string, Json>,
                 order: seq<string>, env: Env) returns (o: Outcome)
    ensures o == Entries(publish, topicBase, section, order, 0, env)
  {
    ghost var all := Entries(publish, topicBase, section, order, 0, env);
    var acts: seq<Action> := [];
    var i := 0;
    while i < |order|
      invariant 0 <= i <= |order|
      invariant all == After(acts, Entries(publish, topicBase, section, order, i, env))
    {
      var e := ReadEntry(publish, topicBase, section, order[i], env);
      if e.end == Propagated {
        return Outcome(acts + e.actions, Propagated);
      }
      AfterAfter(acts, e.actions, Entries(publish, topicBase, section, order, i + 1, env));
      acts := acts + e.actions;
      i := i + 1;
    }
    o := Outcome(acts, Continue);
  }

  /** The script run as `__main__`, over the calls `envs` of `main()`: it
      stops at the first pass that does not go round again. */
  method Boot(machineId: string, envs: seq<Env>) returns (trace: seq<Action>, end: End)
    ensures Outcome(trace, end) == Boots(Defaults, machineId, envs)
  {
    var s := new Script(machineId);
    var i := 0;
    end := Continue;
    while i < |envs| && end == Continue
      invariant 0 <= i <= |envs|
      invariant s.machineId == machineId
      invariant end == Continue ==> Boots(Defaults, machineId, envs) == After(s.trace, Boots(s.config, machineId, envs[i..]))
      invariant end != Continue ==> Boots(Defaults, machineId, envs) == Outcome(s.trace, end)
    {
      BootsStep(Defaults, machineId, envs, i, s.config, s.trace);
      end := s.Pass(envs[i]);
      i := i + 1;
    }
    if end == Continue {
      assert envs[i..] == [];
    }
    trace := s.trace;
  }

  lemma BootsStep(config0: map<string, Json>, machineId: string, envs: seq<Env>, i: nat,
                  config: map<string, Json>, before: seq<Action>)
    requires i < |envs|
    requires Boots(config0, machineId, envs) == After(before, Boots(config, machineId, envs[i..]))
    ensures var t := LoopPass(config, machineId, envs[i]);
            if t.out.end != Continue then Boots(config0, machineId, envs) == Outcome(before + t.out.actions, t.out.end)
            else Boots(config0, machineId, envs) == After(before + t.out.actions, Boots(t.config, machineId, envs[i + 1..]))
  {
    assert envs[i..][0] == envs[i] && envs[i..][1..] == envs[i + 1..];
    var t := LoopPass(config, machineId, envs[i]);
    if t.out.end == Continue {
      var rest := Boots(t.config, machineId, envs[i + 1..]).actions;
      assert before + (t.out.actions + rest) == (before + t.out.actions) + rest;
    }
  }

  /** No key of `CONFIG` is ever lost: the defaults stay available, so
      `CONFIG['exception_wait']` never raises a KeyError. */
  lemma ConfigKeysKept(config: map<string, Json>, machineId: string, env: Env)
    ensures config.Keys <= LoopPass(config, machineId, env).config.Keys
  {
  }

  /** Reading the same file again leaves `CONFIG` as the first read left it. */
  lemma ReparseIdempotent(config: map<string, Json>, file: Option<Json>)
    requires Parsed(config, file).Some?
    ensures Parsed(Parsed(config, file).value, file) == Parsed(config, file)
  {
    if file.value.Obj? {
      MergeIdempotent(config, file.value.fields);
    }
  }

  /** With the default `exception_raise`, the first call of `main()` never
      lets the loop go round: it powers down or the exception leaves the
      script. */
  lemma DefaultsNeverRetry(machineId: string, env: Env)
    requires env.file.Some? ==> !env.file.value.Obj? || "exception_raise" !in env.file.value.fields
    ensures LoopPass(Defaults, machineId, env).out.end != Continue
  {
    var t := MainCall(Defaults, machineId, env);
    if env.file.Some? && env.file.value.Obj? {
      assert t.config["exception_raise"] == Bool(true);
    }
  }

  /** When `main()` powers down, every entry of the merged `read` section
      was read and its reading handed to the client for `<topic_base>/<name>`,
      and the board sleeps for `sleep_time` right after the last one. */
  lemma PowersDownAfterEveryEntry(config: map<string, Json>, machineId: string, env: Env)
    requires LoopPass(config, machineId, env).out.end == PoweredDown
    ensures var c := LoopPass(config, machineId, env).config;
            "publish" in c && c["publish"].Obj? && "topic_base" in c["publish"].fields
            && c["publish"].fields["topic_base"].Str? && Format(c["publish"].fields["topic_base"].s, machineId).Some?
            && "sleep_time" in c && GetOr(c, "read", Obj(map[])).Obj?
    ensures var c := LoopPass(config, machineId, env).config;
            var t := LoopPass(config, machineId, env).out.actions;
            var section := GetOr(c, "read", Obj(map[])).fields;
            var topicBase := Format(c["publish"].fields["topic_base"].s, machineId).value;
            (forall n :: n in section ==>
               env.sensor(n).Some? && Publish(EntryMessage(topicBase, n, env.sensor(n).value)) in t)
            && |t| >= 2 && t[|t| - 2] == ArmAlarm(c["sleep_time"]) && t[|t| - 1] == DeepSleep
  {
    var c := LoopPass(config, machineId, env).config;
    var publish := c["publish"].fields;
    var topicBase := Format(publish["topic_base"].s, machineId).value;
    var section := GetOr(c, "read", Obj(map[])).fields;
    var order := env.order(section);
    assert IterationOrder(order, section);
    var e := Entries(publish, topicBase, section, order, 0, env);
    EntriesPublishAll(publish, topicBase, section, order, 0, env);
    forall n | n in section
      ensures env.sensor(n).Some? && Publish(EntryMessage(topicBase, n, env.sensor(n).value)) in e.actions
    {
      assert n in order;
      var k :| 0 <= k < |order| && order[k] == n;
    }
    var z := DeepSleepFor(c["sleep_time"]);
    var t := LoopPass(config, machineId, env).out.actions;
    assert t == e.actions + z.actions;
  }

  /** What `main()` needs to reach `deepsleep`, read off the merged
      configuration: a formattable string `topic_base` under a `publish`
      dict, a dict `read` section whose every entry goes through, and a
      numeric `sleep_time`. */
  predicate MainPowersDown(conf: map<string, Json>, machineId: string, env: Env) {
    var publish := GetOr(conf, "publish", Null);
    var section := GetOr(conf, "read", Obj(map[]));
    publish.Obj? && GetOr(publish.fields, "topic_base", Null).Str?
    && Format(publish.fields["topic_base"].s, machineId).Some?
    && section.Obj?
    && (forall n :: n in section.fields ==> EntryDelivers(publish.fields, section.fields, n, env))
    && IsNumber(GetOr(conf, "sleep_time", Null))
  }

  /** The loop over the `read` section goes through exactly when every
      entry of the section does, whatever order the dict visits them in. */
  lemma EveryEntryContinues(publish: map<string, Json>, topicBase: string, section: map<string, Json>, env: Env)
    ensures Entries(publish, topicBase, section, env.order(section), 0, env).end == Continue
            <==> forall n :: n in section ==> EntryDelivers(publish, section, n, env)
  {
    var order := env.order(section);
    assert IterationOrder(order, section);
    EntriesContinue(publish, topicBase, section, order, 0, env);
    forall n | n in section
      ensures Entry(publish, topicBase, section, n, env).end == Continue <==> EntryDelivers(publish, section, n, env)
    {
      EntryGoesThrough(publish, topicBase, section, n, env);
    }
    if forall n :: n in section ==> EntryDelivers(publish, section, n, env) {
      forall k | 0 <= k < |order|
        ensures Entry(publish, topicBase, section, order[k], env).end == Continue
      {
        assert order[k] in order;
      }
    } else {
      var n :| n in section && !EntryDelivers(publish, section, n, env);
      assert n in order;
      var k :| 0 <= k < |order| && order[k] == n;
      assert Entry(publish, topicBase, section, order[k], env).end != Continue;
    }
  }

  /** `main()`, after `parse_config`, reaches `deepsleep` exactly when the
      merged configuration has everything it needs. */
  lemma WorkPowersDown(conf: map<string, Json>, machineId: string, env: Env)
    ensures Work(conf, machineId, env).end == PoweredDown <==> MainPowersDown(conf, machineId, env)
  {
    var publish := GetOr(conf, "publish", Null);
    var section := GetOr(conf, "read", Obj(map[]));
    if publish.Obj? && GetOr(publish.fields, "topic_base", Null).Str? && section.Obj? {
      var topicBase := Format(publish.fields["topic_base"].s, machineId);
      if topicBase.Some? {
        EveryEntryContinues(publish.fields, topicBase.value, section.fields, env);
      }
    }
  }

  /** A pass of the outer loop powers the board down exactly when the file
      is read and merged and `main()` then has everything it needs: every
      entry of the `read` section is read and delivered. The `except`
      clause never powers down. */
  lemma PowersDownExactly(config: map<string, Json>, machineId: string, env: Env)
    ensures LoopPass(config, machineId, env).out.end == PoweredDown
            <==> Parsed(config, env.file).Some? && MainPowersDown(Parsed(config, env.file).value, machineId, env)
  {
    var p := Parsed(config, env.file);
    if p.Some? {
      WorkPowersDown(p.value, machineId, env);
    }
  }

  /** A completed loop from position `i` is the entry at `i` going through,
      followed by the completed loop from `i + 1`. */
  lemma EntriesStep(publish: map<string, Json>, topicBase: string, section: map<string, Json>,
                    order: seq<string>, i: nat, env: Env)
    requires i < |order|
    requires Entries(publish, topicBase, section, order, i, env).end == Continue
    ensures Entry(publish, topicBase, section, order[i], env).end == Continue
    ensures Entries(publish, topicBase, section, order, i + 1, env).end == Continue
    ensures Entries(publish, topicBase, section, order, i, env).actions
            == Entry(publish, topicBase, section, order[i], env).actions + Entries(publish, topicBase, section, order, i + 1, env).actions
  {
  }

  /** An entry of the section that goes through has published its reading. */
  lemma EntryPublished(publish: map<string, Json>, topicBase: string, section: map<string, Json>,
                       name: string, env: Env)
    requires name in section && Entry(publish, topicBase, section, name, env).end == Continue
    ensures env.sensor(name).Some?
    ensures Publish(EntryMessage(topicBase, name, env.sensor(name).value)) in Entry(publish, topicBase, section, name, env).actions
  {
    EntryPublishes(publish, topicBase, section, name, env);
    var t := Entry(publish, topicBase, section, name, env).actions;
    assert t[|t| - 2] == Publish(EntryMessage(topicBase, name, env.sensor(name).value));
  }

  /** An `Entries` run that completes has published every entry of the
      section listed from position `i` on. */
  lemma {:induction false} EntriesPublishAll(publish: map<string, Json>, topicBase: string, section: map<string, Json>,
                                            order: seq<string>, i: nat, env: Env)
    requires i <= |order|
    requires Entries(publish, topicBase, section, order, i, env).end == Continue
    ensures forall k :: i <= k < |order| && order[k] in section ==>
              env.sensor(order[k]).Some?
              && Publish(EntryMessage(topicBase, order[k], env.sensor(order[k]).value))
                 in Entries(publish, topicBase, section, order, i, env).actions
    decreases |order| - i
  {
    if i < |order| {
      EntriesStep(publish, topicBase, section, order, i, env);
      EntriesPublishAll(publish, topicBase, section, order, i + 1, env);
      if order[i] in section {
        EntryPublished(publish, topicBase, section, order[i], env);
      }
    }
  }
}
