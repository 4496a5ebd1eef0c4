/** What an endpoint's bound functions do, as values: the fixed set of read,
    write and sample functions that `getattr(self, ...)` can resolve to in
    src/lib/device.py and src/device.py, their effect on the pin and PWM
    levels, the topic defaults, the harvest of `read_data` and the messages
    `publish_data` sends. The Device classes apply these to their fields. */
module Capabilities {
  import opened JsonValue
  import opened Effects

  datatype ReadFn = ReadDht11 | ReadDht22 | ReadDs18x20 | ReadStatus | ReadPwm | ReadRpm
  datatype WriteFn = WritePwm | WriteStatus | ToggleStatus

  /** A configuration section after construction: not given, given but
      unusable (construction raises), or usable with its resolved value. */
  datatype Setting<+T> = Absent | Invalid | Valid(value: T)

  datatype PublishSpec = PublishSpec(topic: string, retain: bool)
  datatype SubscribeSpec = SubscribeSpec(topic: string, write: WriteFn)

  /** PWM channel state; values are stored as the payload gave them. */
  datatype Pwm = Pwm(freq: Json, duty: Json)

  /** A message taken from the broker by `check_msg()`: its topic, its raw
      payload and what `json.loads` makes of it (None when it raises). */
  datatype Incoming = Incoming(topic: string, payload: string, parsed: Option<Json>)

  /** The effect of a write function: new pin level, new PWM state, and the
      returned value, or None when the call raised after that state change. */
  datatype Applied = Applied(level: Option<int>, pwm: Option<Pwm>, result: Option<Json>)

  /** The name a function id from the configuration must have: a string, or
      the `<prefix><name>` default when the key is absent. None when the
      configured id is not a string (`getattr` raises). */
  function FunctionId(spec: map<string, Json>, prefix: string, name: string): Option<string> {
    if "function" !in spec then Some(prefix + name)
    else if spec["function"].Str? then Some(spec["function"].s)
    else None
  }

  /** `{"value": v}` */
  function ValueRecord(v: Json): Json {
    Obj(map["value" := v])
  }

  /** What the bound read function returns, None when it raises. `sensor` is
      the decoded output of the dht/ds18x20 driver, None when it fails. The
      drivers are built on the endpoint's pin (`pin_id` or `pin`), and the pin
      and PWM readers read the pin and PWM channel, so each raises
      AttributeError when the endpoint was given none. */
  function ReadOutcome(f: ReadFn, level: Option<int>, pwm: Option<Pwm>, sensor: Option<Json>): (r: Option<Json>)
    ensures f == ReadRpm ==> r.Some? && !Truthy(r.value)
    ensures f == ReadStatus ==> r == (if level.Some? then Some(ValueRecord(Int(level.value))) else None)
    ensures f == ReadPwm ==> (r.Some? <==> pwm.Some?)
    ensures f == ReadPwm && r.Some? ==>
              r.value.Obj? && r.value.fields.Keys == {"freq", "duty"}
              && r.value.fields["freq"] == pwm.value.freq && r.value.fields["duty"] == pwm.value.duty
    ensures f in {ReadDht11, ReadDht22, ReadDs18x20} ==> r == (if level.Some? then sensor else None)
  {
    match f
    case ReadStatus => if level.Some? then Some(ValueRecord(Int(level.value))) else None
    case ReadPwm =>
      if pwm.Some? then Some(Obj(map["freq" := pwm.value.freq, "duty" := pwm.value.duty])) else None
    case ReadRpm => Some(Null)
    case _ => if level.Some? then sensor else None
  }

  predicate IsDigit(c: char) {
    '0' <= c <= '9'
  }

  function DigitsValue(s: string): nat
    requires forall i :: 0 <= i < |s| ==> IsDigit(s[i])
  {
    if s == [] then 0
    else
      assert IsDigit(s[|s| - 1]);
      10 * DigitsValue(s[..|s| - 1]) + (s[|s| - 1] as int - '0' as int)
  }

  function DigitChar(d: nat): (c: char)
    requires d < 10
    ensures IsDigit(c) && c as int - '0' as int == d
  {
    ('0' as int + d) as char
  }

  /** `str(n)` for a natural number: its decimal digits, most significant
      first, without leading zeros. */
  function Decimal(n: nat): (s: string)
    ensures |s| >= 1 && forall i :: 0 <= i < |s| ==> IsDigit(s[i])
    ensures |s| > 1 ==> s[0] != '0'
    decreases n
  {
    if n < 10 then [DigitChar(n)] else Decimal(n / 10) + [DigitChar(n % 10)]
  }

  /** Reading the decimal text back gives the number. */
  lemma {:induction false} DecimalRoundTrip(n: nat)
    ensures DigitsValue(Decimal(n)) == n
    decreases n
  {
    var s := Decimal(n);
    if n < 10 {
      assert s[..0] == [];
    } else {
      DecimalRoundTrip(n / 10);
      assert s[..|s| - 1] == Decimal(n / 10);
    }
  }

  /** `str(x)` for a decoded value other than a list or a dict: `None`,
      `True`/`False`, the decimal text of an integer, the string itself. None
      for lists and dicts, whose `repr` text is not modelled. */
  function PyStr(j: Json): (s: Option<string>)
    ensures j.Str? ==> s == Some(j.s)
    ensures j.Int? && j.i >= 0 ==> s == Some(Decimal(j.i))
    ensures j.Int? && j.i < 0 ==> s == Some("-" + Decimal(-j.i))
    ensures s.None? <==> j.Arr? || j.Obj?
  {
    match j
    case Null => Some("None")
    case Bool(b) => Some(if b then "True" else "False")
    case Int(i) => Some(if i >= 0 then Decimal(i) else "-" + Decimal(-i))
    case Str(t) => Some(t)
    case _ => None
  }

  /** The characters `int()` ignores at both ends of its argument: space,
      tab, line feed, vertical tab, form feed and carriage return. */
  predicate IsSpace(c: char) {
    c == ' ' || 9 <= c as int <= 13
  }

  /** `s` without its leading whitespace. */
  function TrimStart(s: string): (t: string)
    ensures |t| <= |s| && t == s[|s| - |t|..]
    ensures t != [] ==> !IsSpace(t[0])
    ensures forall i :: 0 <= i < |s| - |t| ==> IsSpace(s[i])
  {
    if s != [] && IsSpace(s[0]) then TrimStart(s[1..]) else s
  }

  /** `s` without its trailing whitespace. */
  function TrimEnd(s: string): (t: string)
    ensures |t| <= |s| && t == s[..|t|]
    ensures t != [] ==> !IsSpace(t[|t| - 1])
    ensures forall i :: |t| <= i < |s| ==> IsSpace(s[i])
  {
    if s != [] && IsSpace(s[|s| - 1]) then TrimEnd(s[..|s| - 1]) else s
  }

  /** The signs `int()` accepts in front of the digits: none, `+` or `-`. */
  predicate IsSign(sign: string) {
    sign == "" || sign == "+" || sign == "-"
  }

  /** A non-empty run of decimal digits. */
  predicate AllDigits(d: string) {
    |d| > 0 && forall i :: 0 <= i < |d| ==> IsDigit(d[i])
  }

  /** The number a sign and a digit value stand for. */
  function Signed(sign: string, v: nat): int {
    if sign == "-" then -(v as int) else v
  }

  /** The value of a digit character in the bases up to 36: `0`-`9`, then
      `a`-`z` and `A`-`Z` from 10 on; 36 for any other character. */
  function DigitValue(c: char): (v: nat)
    ensures v <= 36
    ensures IsDigit(c) ==> v == c as int - '0' as int
  {
    if '0' <= c <= '9' then c as int - '0' as int
    else if 'a' <= c <= 'z' then c as int - 'a' as int + 10
    else if 'A' <= c <= 'Z' then c as int - 'A' as int + 10
    else 36
  }

  /** A non-empty run of digits of `base`. */
  predicate AllDigitsIn(d: string, base: nat) {
    |d| > 0 && forall i :: 0 <= i < |d| ==> DigitValue(d[i]) < base
  }

  /** `base * v` for the bases a prefix selects, written with constant
      factors. */
  function Shift(base: nat, v: nat): nat {
    if base == 16 then 16 * v else if base == 8 then 8 * v else if base == 2 then 2 * v else 10 * v
  }

  /** The value of a run of digits of `base` (2, 8 or 16), most significant
      first. */
  function ValueIn(d: string, base: nat): nat
    requires forall i :: 0 <= i < |d| ==> DigitValue(d[i]) < base
  {
    if d == [] then 0
    else
      assert DigitValue(d[|d| - 1]) < base;
      Shift(base, ValueIn(d[..|d| - 1], base)) + DigitValue(d[|d| - 1])
  }

  /** The base a prefix letter after `0` selects (`x`, `o`, `b`, in either
      case); 0 for any other character. */
  function BaseLetter(c: char): (b: nat)
    ensures b == 0 || b == 2 || b == 8 || b == 16
    ensures IsDigit(c) ==> b == 0
  {
    if c == 'x' || c == 'X' then 16
    else if c == 'o' || c == 'O' then 8
    else if c == 'b' || c == 'B' then 2
    else 0
  }

  /** A base prefix: `0x`, `0o` or `0b`, in either case. */
  predicate IsBasePrefix(p: string) {
    |p| == 2 && p[0] == '0' && BaseLetter(p[1]) != 0
  }

  /** The digits that follow the optional sign: with no prefix a run of
      decimal digits, after a base prefix a run of digits of that base. */
  predicate Numeral(p: string, d: string) {
    (p == "" && AllDigits(d)) || (IsBasePrefix(p) && AllDigitsIn(d, BaseLetter(p[1])))
  }

  /** The value of a numeral. */
  function NumeralValue(p: string, d: string): nat
    requires Numeral(p, d)
  {
    if p == "" then DigitsValue(d) else ValueIn(d, BaseLetter(p[1]))
  }

  /** The prefix the parser takes from the digits part: the first two
      characters when they form a base prefix, nothing otherwise. */
  function PrefixOf(s: string): (p: string)
    ensures p == "" || IsBasePrefix(p)
    ensures |p| <= |s| && p == s[..|p|]
  {
    if |s| >= 2 && s[0] == '0' && BaseLetter(s[1]) != 0 then s[..2] else ""
  }

  /** The digits part of `int()` with base 0, as MicroPython parses it: a
      `0x`, `0o` or `0b` prefix selects base 16, 8 or 2, anything else is
      read in base 10. None when the rest is not a non-empty run of digits
      of that base. */
  function ParseUnsigned(s: string): (r: Option<nat>)
    ensures AllDigits(s) ==> r == Some(DigitsValue(s))
    ensures r.Some? ==> |s| > 0 && IsDigit(s[0])
    ensures r.Some? ==> var p := PrefixOf(s); Numeral(p, s[|p|..]) && r.value == NumeralValue(p, s[|p|..])
  {
    var p := PrefixOf(s);
    if p != "" then
      if AllDigitsIn(s[2..], BaseLetter(s[1])) then Some(ValueIn(s[2..], BaseLetter(s[1]))) else None
    else if AllDigits(s) then
      assert s[|p|..] == s;
      Some(DigitsValue(s))
    else None
  }

  /** The sign `int()` takes from the front of `s`: `+` or `-`, or none. */
  function SignOf(s: string): (sign: string)
    ensures IsSign(sign) && |sign| <= |s| && sign == s[..|sign|]
  {
    if |s| > 0 && (s[0] == '-' || s[0] == '+') then s[..1] else ""
  }

  /** An optional sign followed by a numeral; None otherwise. */
  function ParseSigned(s: string): (r: Option<int>)
    ensures AllDigits(s) ==> r == Some(DigitsValue(s))
    ensures r.Some? ==> |SignOf(s)| < |s| && IsDigit(s[|SignOf(s)|])
  {
    var sign := SignOf(s);
    var u := ParseUnsigned(s[|sign|..]);
    if u.None? then None
    else
      assert s[|sign|..][0] == s[|sign|];
      Some(Signed(sign, u.value))
  }

  /** `int(payload)`: surrounding whitespace is ignored and the rest must be
      an optional sign followed by a numeral; None (ValueError) otherwise. */
  function ParseInt(s: string): (r: Option<int>)
    ensures r.Some? ==> exists i :: 0 <= i < |s| && IsDigit(s[i])
  {
    var t := TrimEnd(TrimStart(s));
    var r := ParseSigned(t);
    if r.Some? then
      var k := |SignOf(t)|;
      assert t[k] == TrimStart(s)[k];
      assert IsDigit(s[|s| - |TrimStart(s)| + k]);
      r
    else r
  }

  /** A success of `ParseSigned` is the signed value of the sign, base
      prefix and digits that make up its argument. */
  lemma ParseSignedShape(s: string)
    ensures ParseSigned(s).Some? ==>
              exists sign, p, d :: IsSign(sign) && Numeral(p, d) && s == sign + p + d
                                   && ParseSigned(s).value == Signed(sign, NumeralValue(p, d))
  {
    var sign := SignOf(s);
    var rest := s[|sign|..];
    if ParseUnsigned(rest).Some? {
      var p := PrefixOf(rest);
      var d := rest[|p|..];
      assert s == sign + p + d by {
        assert s == sign + rest;
        assert rest == p + d;
      }
      assert IsSign(sign) && Numeral(p, d) && ParseSigned(s).value == Signed(sign, NumeralValue(p, d));
    }
  }

  /** A success of `int()` is always the signed value of the sign, base
      prefix and digits that make up the payload without its surrounding
      whitespace. */
  lemma ParseIntShape(s: string)
    ensures ParseInt(s).Some? ==>
              exists sign, p, d :: IsSign(sign) && Numeral(p, d) && TrimEnd(TrimStart(s)) == sign + p + d
                                   && ParseInt(s).value == Signed(sign, NumeralValue(p, d))
  {
    ParseSignedShape(TrimEnd(TrimStart(s)));
  }

  lemma ParseUnsignedNumeral(p: string, d: string)
    requires Numeral(p, d)
    ensures ParseUnsigned(p + d) == Some(NumeralValue(p, d))
  {
    var s := p + d;
    if p == "" {
      assert s == d;
    } else {
      assert s[0] == '0' && s[1] == p[1];
      assert PrefixOf(s) == p;
      assert s[2..] == d;
    }
  }

  lemma ParseSignedNumeral(sign: string, p: string, d: string)
    requires IsSign(sign) && Numeral(p, d)
    ensures ParseSigned(sign + p + d) == Some(Signed(sign, NumeralValue(p, d)))
  {
    var s := sign + p + d;
    var u := p + d;
    assert s[|sign|..] == u;
    assert SignOf(s) == sign by {
      if sign == "" {
        assert u[0] == (if p == "" then d[0] else '0');
        assert s[0] == u[0];
      }
    }
    ParseUnsignedNumeral(p, d);
  }

  /** Trimming leaves a text without whitespace at its ends as it is. */
  lemma TrimNothing(s: string)
    requires s != [] && !IsSpace(s[0]) && !IsSpace(s[|s| - 1])
    ensures TrimEnd(TrimStart(s)) == s
  {
    assert TrimStart(s) == s;
  }

  /** `int()` of an optional sign, an optional base prefix and a run of
      digits of that base is the signed value of the digits. */
  lemma ParseIntSigned(sign: string, p: string, d: string)
    requires IsSign(sign) && Numeral(p, d)
    ensures ParseInt(sign + p + d) == Some(Signed(sign, NumeralValue(p, d)))
  {
    var s := sign + p + d;
    assert s[|s| - 1] == d[|d| - 1];
    assert !IsSpace(s[0]) && !IsSpace(s[|s| - 1]);
    TrimNothing(s);
    ParseSignedNumeral(sign, p, d);
  }

  /** A base prefix without digits raises. */
  lemma ParseIntBarePrefix(p: string)
    requires IsBasePrefix(p)
    ensures ParseInt(p) == None
  {
    assert !IsSpace(p[0]) && !IsSpace(p[1]);
    TrimNothing(p);
    assert SignOf(p) == "" && p[0..] == p;
    assert PrefixOf(p) == p && p[2..] == "";
  }

  /** A digit outside the prefix's base makes a prefixed numeral raise. */
  lemma ParseIntRefusesDigit(p: string, d: string, i: int)
    requires IsBasePrefix(p) && 0 <= i < |d| && DigitValue(d[i]) >= BaseLetter(p[1])
    requires !IsSpace(d[|d| - 1])
    ensures ParseInt(p + d) == None
  {
    var s := p + d;
    assert s[0] == '0' && s[|s| - 1] == d[|d| - 1];
    TrimNothing(s);
    assert SignOf(s) == "" && s[0..] == s;
    ParseUnsignedRefusesDigit(p, d, i);
  }

  lemma ParseUnsignedRefusesDigit(p: string, d: string, i: int)
    requires IsBasePrefix(p) && 0 <= i < |d| && DigitValue(d[i]) >= BaseLetter(p[1])
    ensures ParseUnsigned(p + d) == None
  {
    var s := p + d;
    assert s[..2] == p && s[2..] == d;
    assert PrefixOf(s) == p;
    assert !AllDigitsIn(d, BaseLetter(p[1]));
  }

  /** `int("0x1g")` raises: `g` is not a hexadecimal digit. */
  lemma ParseIntBadDigit()
    ensures ParseInt("0x1g") == None
  {
    assert IsBasePrefix("0x") && DigitValue("1g"[1]) == 16;
    ParseIntRefusesDigit("0x", "1g", 1);
    assert "0x" + "1g" == "0x1g";
  }

  lemma {:induction false} TrimStartSpaces(pre: string, x: string)
    requires forall i :: 0 <= i < |pre| ==> IsSpace(pre[i])
    ensures TrimStart(pre + x) == TrimStart(x)
  {
    if pre != [] {
      assert (pre + x)[1..] == pre[1..] + x;
      TrimStartSpaces(pre[1..], x);
    } else {
      assert pre + x == x;
    }
  }

  lemma {:induction false} TrimEndSpaces(x: string, post: string)
    requires forall i :: 0 <= i < |post| ==> IsSpace(post[i])
    ensures TrimEnd(x + post) == TrimEnd(x)
  {
    if post != [] {
      assert (x + post)[..|x + post| - 1] == x + post[..|post| - 1];
      TrimEndSpaces(x, post[..|post| - 1]);
    } else {
      assert x + post == x;
    }
  }

  /** Whitespace around a payload does not change what `int()` makes of it. */
  lemma ParseIntPadded(pre: string, core: string, post: string)
    requires forall i :: 0 <= i < |pre| ==> IsSpace(pre[i])
    requires forall i :: 0 <= i < |post| ==> IsSpace(post[i])
    requires core != [] && !IsSpace(core[0]) && !IsSpace(core[|core| - 1])
    ensures ParseInt(pre + core + post) == ParseInt(core)
  {
    assert pre + core + post == pre + (core + post);
    TrimStartSpaces(pre, core + post);
    assert TrimStart(core + post) == core + post;
    assert TrimStart(core) == core;
    TrimEndSpaces(core, post);
  }

  /** Pin.value(x) drives the pin high exactly when x is truthy. */
  function PinLevel(x: int): (v: int)
    ensures v == 0 || v == 1
    ensures v == 1 <==> x != 0
  {
    if x != 0 then 1 else 0
  }

  /** Sets one PWM field from `param[key]` when that value is present and
      truthy; `set` picks the field. */
  function SetPwmField(pwm: Option<Pwm>, param: map<string, Json>, key: string): (r: Option<Option<Pwm>>)
    requires key == "freq" || key == "duty"
    ensures !(key in param && Truthy(param[key])) ==> r == Some(pwm)
    ensures key in param && Truthy(param[key]) ==> (r.Some? <==> pwm.Some?)
  {
    if key in param && Truthy(param[key]) then
      if pwm.None? then None
      else if key == "freq" then Some(Some(pwm.value.(freq := param[key])))
      else Some(Some(pwm.value.(duty := param[key])))
    else Some(pwm)
  }

  /** The bound write function applied to an incoming message. */
  function WriteOutcome(f: WriteFn, level: Option<int>, pwm: Option<Pwm>, msg: Incoming): (a: Applied)
  {
    match f
    case WriteStatus =>
      if level.None? || ParseInt(msg.payload).None? then Applied(level, pwm, None)
      else Applied(Some(PinLevel(ParseInt(msg.payload).value)), pwm, Some(ValueRecord(Str(msg.payload))))
    case ToggleStatus =>
      if level.None? then Applied(level, pwm, None)
      else
        var v := if level.value != 0 then 0 else 1;
        Applied(Some(v), pwm, Some(ValueRecord(Int(v))))
    case WritePwm =>
      if msg.parsed.None? || !msg.parsed.value.Obj? then Applied(level, pwm, None)
      else
        var param := msg.parsed.value.fields;
        var afterFreq := SetPwmField(pwm, param, "freq");
        if afterFreq.None? then Applied(level, pwm, None)
        else
          var afterDuty := SetPwmField(afterFreq.value, param, "duty");
          if afterDuty.None? then Applied(level, afterFreq.value, None)
          else Applied(level, afterDuty.value, Some(msg.parsed.value))
  }

  /** `write_status` drives the pin to the truthiness of `int(payload)` and
      echoes the payload; a payload `int` rejects changes nothing. */
  lemma WriteStatusEffect(level: int, pwm: Option<Pwm>, msg: Incoming)
    ensures var a := WriteOutcome(WriteStatus, Some(level), pwm, msg);
            a.pwm == pwm
            && (ParseInt(msg.payload).Some? ==>
                  a.level == Some(PinLevel(ParseInt(msg.payload).value))
                  && a.result == Some(ValueRecord(Str(msg.payload))) && Truthy(a.result.value))
            && (ParseInt(msg.payload).None? ==> a.level == Some(level) && a.result.None?)
  {
    assert "value" in ValueRecord(Str(msg.payload)).fields;
  }

  /** `toggle_status` drives the complement of the current level and returns
      the new level. */
  lemma ToggleEffect(level: int, pwm: Option<Pwm>, msg: Incoming)
    ensures var a := WriteOutcome(ToggleStatus, Some(level), pwm, msg);
            a.level.Some? && (a.level.value == 1 <==> level == 0)
            && a.result == Some(ValueRecord(Int(a.level.value))) && a.pwm == pwm
  {
  }

  /** `write_pwm` changes the frequency only for a present, truthy `freq` and
      the duty only for a present, truthy `duty`, and returns the payload. */
  lemma WritePwmEffect(level: Option<int>, pwm: Pwm, msg: Incoming)
    requires msg.parsed.Some? && msg.parsed.value.Obj?
    ensures var param := msg.parsed.value.fields;
            var a := WriteOutcome(WritePwm, level, Some(pwm), msg);
            a.level == level && a.result == msg.parsed
            && a.pwm.Some?
            && a.pwm.value.freq == (if "freq" in param && Truthy(param["freq"]) then param["freq"] else pwm.freq)
            && a.pwm.value.duty == (if "duty" in param && Truthy(param["duty"]) then param["duty"] else pwm.duty)
  {
  }

  /** A control payload that is an optionally signed numeral drives the
      pin to the truthiness of its value. */
  lemma WriteStatusNumeral(level: int, pwm: Option<Pwm>, topic: string, sign: string, p: string, d: string,
                           parsed: Option<Json>)
    requires IsSign(sign) && Numeral(p, d)
    ensures WriteOutcome(WriteStatus, Some(level), pwm, Incoming(topic, sign + p + d, parsed)).level
            == Some(PinLevel(Signed(sign, NumeralValue(p, d))))
  {
    var msg := Incoming(topic, sign + p + d, parsed);
    ParseIntSigned(sign, p, d);
    WriteStatusEffect(level, pwm, msg);
  }

  /** The `Pin.value(int(b"1"))` of a `{"value": "1"}`-style control message
      drives the pin high. */
  lemma WriteStatusOne(level: int, pwm: Option<Pwm>, topic: string)
    ensures WriteOutcome(WriteStatus, Some(level), pwm, Incoming(topic, "1", Some(Int(1)))).level == Some(1)
  {
    assert AllDigits("1") && Numeral("", "1");
    WriteStatusNumeral(level, pwm, topic, "", "", "1", Some(Int(1)));
    assert "" + "" + "1" == "1";
  }

  /** The control payload "0x1" is read in base 16 and drives the pin high. */
  lemma WriteStatusHexOne(level: int, pwm: Option<Pwm>, topic: string)
    ensures WriteOutcome(WriteStatus, Some(level), pwm, Incoming(topic, "0x1", None)).level == Some(1)
  {
    assert BaseLetter('x') == 16 && IsBasePrefix("0x");
    assert ValueIn("1", 16) == 1 by {
      assert "1"[..0] == "";
    }
    assert Numeral("0x", "1") && NumeralValue("0x", "1") == 1;
    assert "" + "0x" + "1" == "0x1";
    WriteStatusNumeral(level, pwm, topic, "", "0x", "1", None);
  }

  /** The default topic base `"esp/<MACHINE_ID>"`. */
  function DefaultTopicBase(machineId: string): string {
    "esp/" + machineId
  }

  /** `spec.get('topic', "{0}/{1}<suffix>".format(spec.get('topic_base',
      "esp/<MACHINE_ID>"), name))`, None when the value used is not a
      string. */
  function TopicFor(spec: map<string, Json>, name: string, suffix: string, machineId: string): (t: Option<string>)
    ensures "topic" in spec && spec["topic"].Str? ==> t == Some(spec["topic"].s)
    ensures "topic" !in spec && "topic_base" !in spec ==> t == Some(DefaultTopicBase(machineId) + "/" + name + suffix)
    ensures ("topic" !in spec && "topic_base" in spec && spec["topic_base"].Str?)
              ==> t == Some(spec["topic_base"].s + "/" + name + suffix)
  {
    if "topic" in spec then (if spec["topic"].Str? then Some(spec["topic"].s) else None)
    else if "topic_base" !in spec then Some(DefaultTopicBase(machineId) + "/" + name + suffix)
    else if spec["topic_base"].Str? then Some(spec["topic_base"].s + "/" + name + suffix)
    else None
  }

  /** With no explicit topic, the control topic is the data topic followed by
      "/control", so the two never coincide. */
  lemma DefaultTopicsDiffer(spec: map<string, Json>, name: string, machineId: string)
    requires "topic" !in spec
    requires TopicFor(spec, name, "", machineId).Some?
    ensures TopicFor(spec, name, "/control", machineId) == Some(TopicFor(spec, name, "", machineId).value + "/control")
    ensures TopicFor(spec, name, "/control", machineId) != TopicFor(spec, name, "", machineId)
  {
    var t := TopicFor(spec, name, "", machineId).value;
    var base := if "topic_base" in spec then spec["topic_base"].s else DefaultTopicBase(machineId);
    assert t == base + "/" + name + "";
    assert base + "/" + name + "" + "/control" == base + "/" + name + "/control";
    assert |t + "/control"| != |t|;
  }

  /** What `sample_rpm` returns: one record whose `rounds` is the event count
      and whose `sample` is the whole seconds since the last reset (the
      floating-point `rps` and `rpm` are left out). None when that interval
      is zero: the division raises ZeroDivisionError. */
  function SampleRpm(events: nat, elapsed: int): Option<seq<Json>> {
    if elapsed == 0 then None
    else Some([Obj(map["rounds" := Int(events), "sample" := Int(elapsed)])])
  }

  /** The second half of `read_data`'s result: the sample function's output
      when one is bound, otherwise the buffered readings. */
  function Harvest(sampled: bool, events: nat, data: seq<Json>, elapsed: int): (h: Option<seq<Json>>)
    ensures !sampled ==> h == Some(data)
    ensures sampled ==> (h.Some? <==> elapsed != 0)
    ensures sampled && h.Some? ==>
              |h.value| == 1 && h.value[0].Obj?
              && "rounds" in h.value[0].fields && h.value[0].fields["rounds"] == Int(events)
  {
    if sampled then SampleRpm(events, elapsed) else Some(data)
  }

  /** One non-retained message per reading, in order. */
  function Messages(topic: string, items: seq<Json>): (ms: seq<Message>)
    ensures |ms| == |items|
    ensures forall i :: 0 <= i < |items| ==> ms[i] == Message(topic, items[i], false)
  {
    if items == [] then [] else Messages(topic, items[..|items| - 1]) + [Message(topic, items[|items| - 1], false)]
  }

  /** The messages `publish_data` sends for a harvest, None when it raises:
      with `retain`, only the last reading, flagged retained (IndexError on an
      empty harvest); otherwise every reading in order. */
  function PublishPlan(spec: PublishSpec, items: seq<Json>): (r: Option<seq<Message>>)
    ensures spec.retain ==> (r.Some? <==> items != [])
    ensures spec.retain && r.Some? ==> r.value == [Message(spec.topic, items[|items| - 1], true)]
    ensures !spec.retain ==> r.Some? && |r.value| == |items|
    ensures !spec.retain ==> forall i :: 0 <= i < |items| ==> r.value[i] == Message(spec.topic, items[i], false)
  {
    if spec.retain then
      if items == [] then None else Some([Message(spec.topic, items[|items| - 1], true)])
    else Some(Messages(spec.topic, items))
  }
}
