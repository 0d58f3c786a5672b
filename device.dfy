/** The ESP32 firmware: an MQTT command interpreter for an RGB LED and a fan,
    a two-threshold fan thermostat, and the periodic sensor report.

    The firmware keeps its state in global variables; class Esp32 holds them as
    fields, together with the last levels written to the output pins and the
    messages published so far. Each method is specified by a function on the
    value `Board` of all those fields, and the properties of the firmware are
    lemmas about those functions.

    Temperatures and humidities are integers in hundredths of a unit (the
    DHT22 reports tenths), so the thermostat thresholds 30.0 and 29.0 are 3000
    and 2900. */
module Device {
  import opened Text
  import opened Numbers
  import opened Mqtt

  /** fan_mode == AUTO lets the thermostat drive the fan; MANUAL leaves it to commands. */
  const Auto := false
  const Manual := true

  const FanFull := 255
  const TurnOnAbove := 3000
  const TurnOffBelow := 2900

  /** Sensors are read at most once per this many milliseconds. */
  const Interval := 2000
  /** millis() is an unsigned 32-bit counter. */
  const MillisModulus := 0x1_0000_0000

  datatype Rgb = Rgb(red: int, green: int, blue: int)

  /** Everything the firmware changes: its globals, the pin levels and the publish log. */
  datatype Board = Board(
    color: Rgb,          // led_red, led_green, led_blue
    ledOn: bool,         // led_on
    fanOn: bool,         // fan_on
    fanMode: bool,       // fan_mode
    previousMillis: nat, // previousMillis
    ledPins: Rgb,        // last analogWrite on RED_PIN, GREEN_PIN, BLUE_PIN
    fanPin: int,         // last analogWrite on FAN_PIN
    outbox: seq<Message> // every message published, oldest first
  )

  /** The globals' initial values; the pins start low and nothing is published. */
  const Initial := Board(Rgb(255, 255, 0), false, false, Manual, 0, Rgb(0, 0, 0), 0, [])

  // ---------------------------------------------------------------------
  // Parsing helpers: strtok over " " and atoi
  // ---------------------------------------------------------------------

  const CWhitespace: set<char> := {' ', '\t', '\n', '\r', '\U{B}', '\U{C}'}

  /** The tokens successive strtok(_, " ") calls return for a command. */
  function CommandTokens(command: string): seq<string>
  {
    Tokens(command, {' '})
  }

  /** C's atoi: leading whitespace, an optional sign, then the longest run of
      digits. A numeral, with or without a minus sign, reads as its value. */
  function Atoi(s: string): (n: int)
    ensures IsNumeral(s) ==> n == NumeralValue(s)
    ensures |s| > 1 && s[0] == '-' && IsNumeral(s[1..]) ==> n == -(NumeralValue(s[1..]) as int)
  {
    NoLeadingBlank(s);
    DigitsAreTheirRun(s);
    DigitsAreTheirRun(if s == [] then s else s[1..]);
    var t := TrimStart(s, CWhitespace);
    if t != [] && (t[0] == '-' || t[0] == '+') then Signed(t[0] == '-', NumeralValue(LeadingDigits(t[1..])))
    else NumeralValue(LeadingDigits(t))
  }

  lemma NoLeadingBlank(s: string)
    ensures s != [] && (IsDigit(s[0]) || s[0] == '-') ==> TrimStart(s, CWhitespace) == s
  {
    if s != [] && (IsDigit(s[0]) || s[0] == '-') {
      assert s[0] !in CWhitespace;
    }
  }

  lemma DigitsAreTheirRun(s: string)
    ensures AllDigits(s) ==> LeadingDigits(s) == s
  {
    if AllDigits(s) {
      LeadingDigitsOf(s, []);
      assert s + [] == s;
    }
  }

  // ---------------------------------------------------------------------
  // on_message
  // ---------------------------------------------------------------------

  /** Where the colour arguments start: after "color", which is either the
      first token or, after "switch", the second. */
  function ColorArgs(ts: seq<string>): nat
  {
    if |ts| > 0 && ts[0] == "switch" then 2 else 1
  }

  /** A LED command on which the firmware never passes a missing token (a NULL
      from strtok) to strcmp or atoi. */
  predicate WellFormedLedCommand(command: string)
  {
    WellFormedLedTokens(CommandTokens(command))
  }

  predicate WellFormedLedTokens(ts: seq<string>)
  {
    && |ts| >= 1
    && (ts[0] == "switch" ==> |ts| >= 2)
    && (ts[ColorArgs(ts) - 1] == "color" ==> |ts| >= ColorArgs(ts) + 3)
  }

  /** The LED branch: "switch on" lights the stored colour, "switch off" writes
      black, "color r g b" stores and writes the colour. The word tested for
      "color" is the last one read, so "switch color r g b" sets the colour too. */
  function LedStep(b: Board, command: string): Board
    requires WellFormedLedCommand(command)
  {
    LedTokensStep(b, CommandTokens(command))
  }

  function LedTokensStep(b: Board, ts: seq<string>): Board
    requires WellFormedLedTokens(ts)
  {
    var switched := SwitchPart(b, ts);
    var i := ColorArgs(ts);
    if ts[i - 1] == "color" then
      var c := Rgb(Atoi(ts[i]), Atoi(ts[i + 1]), Atoi(ts[i + 2]));
      switched.(color := c, ledPins := c)
    else switched
  }

  /** The effect of a leading "switch on" or "switch off". */
  function SwitchPart(b: Board, ts: seq<string>): Board
    requires |ts| >= 1 && (ts[0] == "switch" ==> |ts| >= 2)
  {
    if ts[0] != "switch" then b else SwitchStep(b, ts[1])
  }

  function SwitchStep(b: Board, word: string): Board
  {
    if word == "on" then b.(ledPins := b.color, ledOn := true)
    else if word == "off" then b.(ledPins := Rgb(0, 0, 0), ledOn := false)
    else b
  }

  /** The fan state branch: only the exact payload "on" runs the fan. */
  function FanStateStep(b: Board, command: string): Board
  {
    if command == "on" then b.(fanPin := FanFull, fanOn := true)
    else b.(fanPin := 0, fanOn := false)
  }

  /** The fan mode branch: only the exact payload "auto" selects AUTO. */
  function FanModeStep(b: Board, command: string): Board
  {
    b.(fanMode := if command == "auto" then Auto else Manual)
  }

  predicate WellFormedMessage(topic: string, payload: string)
  {
    topic == LedTopic ==> WellFormedLedCommand(CString(payload))
  }

  /** on_message: the payload is read as a C string and dispatched on the exact topic. */
  function OnMessageStep(b: Board, topic: string, payload: string): Board
    requires WellFormedMessage(topic, payload)
  {
    var command := CString(payload);
    if topic == LedTopic then LedStep(b, command)
    else if topic == FanStateTopic then FanStateStep(b, command)
    else if topic == FanModeTopic then FanModeStep(b, command)
    else b
  }

  // ---------------------------------------------------------------------
  // read_dht_sensor, read_gas_sensor, init_home, loop
  // ---------------------------------------------------------------------

  /** The report "%.2f %.2f" of humidity and temperature. */
  function DhtPayload(humidity: int, temperature: int): string
  {
    FormatFixed2(humidity) + " " + FormatFixed2(temperature)
  }

  /** The thermostat: two sequential tests, the first switching the fan on above
      30.0 and the second switching it off below 29.0, each only in AUTO mode. */
  function Thermostat(b: Board, temperature: int): (r: Board)
    ensures r == b.(fanOn := r.fanOn, fanPin := r.fanPin, outbox := r.outbox)
    ensures |b.outbox| <= |r.outbox| <= |b.outbox| + 1 && r.outbox[..|b.outbox|] == b.outbox
    ensures |r.outbox| > |b.outbox| ==> r.outbox[|b.outbox|].topic == FanStateTopic
    ensures b.fanMode == Manual ==> r == b
  {
    var first :=
      if b.fanMode == Auto && !b.fanOn && temperature > TurnOnAbove then
        b.(fanOn := true, fanPin := FanFull, outbox := b.outbox + [Message(FanStateTopic, "on")])
      else b;
    if first.fanMode == Auto && first.fanOn && temperature < TurnOffBelow then
      first.(fanOn := false, fanPin := 0, outbox := first.outbox + [Message(FanStateTopic, "off")])
    else first
  }

  /** read_dht_sensor: publish the reading, then run the thermostat. */
  function DhtStep(b: Board, humidity: int, temperature: int): Board
  {
    Thermostat(b.(outbox := b.outbox + [Message(DhtTopic, DhtPayload(humidity, temperature))]), temperature)
  }

  /** read_gas_sensor: publish the raw ADC value in decimal. */
  function GasStep(b: Board, raw: nat): Board
  {
    b.(outbox := b.outbox + [Message(GasTopic, IntToString(raw))])
  }

  /** "%hhu": the int converted to unsigned char, in decimal. The text is a
      numeral without white space that reads back as x mod 256. */
  function Byte(x: int): (s: string)
    ensures IsNumeral(s) && NumeralValue(s) == x % 256
    ensures NoneIn(s, PythonWhitespace)
  {
    NatToStringRoundTrip(x % 256);
    DigitsAreNotWhitespace(NatToString(x % 256));
    NatToString(x % 256)
  }

  lemma DigitsAreNotWhitespace(s: string)
    requires AllDigits(s)
    ensures NoneIn(s, PythonWhitespace)
  {
    forall i | 0 <= i < |s| ensures s[i] !in PythonWhitespace {
      assert IsDigit(s[i]);
    }
  }

  function Flag(x: bool): int { if x then 1 else 0 }

  /** init_home's report "red green blue fan_mode fan_on led_on". */
  function InitPayload(b: Board): string
  {
    JoinWords([Byte(b.color.red), Byte(b.color.green), Byte(b.color.blue),
               Byte(Flag(b.fanMode)), Byte(Flag(b.fanOn)), Byte(Flag(b.ledOn))])
  }

  function InitStep(b: Board): Board
  {
    b.(outbox := b.outbox + [Message(InitTopic, InitPayload(b))])
  }

  /** Milliseconds since `previous` as unsigned 32-bit subtraction computes them. */
  function Elapsed(current: nat, previous: nat): nat
  {
    (current - previous) % MillisModulus
  }

  /** One pass of loop(): when the interval has elapsed, remember the time and
      read both sensors. */
  function LoopStep(b: Board, current: nat, humidity: int, temperature: int, gas: nat): Board
  {
    if Elapsed(current, b.previousMillis) >= Interval then
      GasStep(DhtStep(b.(previousMillis := current), humidity, temperature), gas)
    else b
  }

  // ---------------------------------------------------------------------
  // The firmware's globals
  // ---------------------------------------------------------------------

  class Esp32 {
    var ledRed: int
    var ledGreen: int
    var ledBlue: int
    var ledOn: bool
    var fanOn: bool
    var fanMode: bool
    var previousMillis: nat
    var ledPins: Rgb
    var fanPin: int
    var outbox: seq<Message>

    ghost predicate Valid()
      reads this
    {
      previousMillis < MillisModulus
    }

    function State(): Board
      reads this
    {
      Board(Rgb(ledRed, ledGreen, ledBlue), ledOn, fanOn, fanMode, previousMillis, ledPins, fanPin, outbox)
    }

    /** The globals at power-up. */
    constructor ()
      ensures Valid() && State() == Initial
    {
      ledRed, ledGreen, ledBlue := 255, 255, 0;
      previousMillis := 0;
      fanMode, fanOn, ledOn := Manual, false, false;
      ledPins, fanPin := Rgb(0, 0, 0), 0;
      outbox := [];
    }

    /** set_color: write the three LED channels. */
    method SetColor(r: int, g: int, b: int)
      modifies this`ledPins
      ensures ledPins == Rgb(r, g, b)
    {
      ledPins := Rgb(r, g, b);
    }

    method OnMessage(topic: string, payload: string)
      requires Valid() && WellFormedMessage(topic, payload)
      modifies this
      ensures Valid()
      ensures State() == OnMessageStep(old(State()), topic, payload)
    {
      var command := CString(payload);
      if topic == LedTopic {
        LedCommand(command);
      }
      if topic == FanStateTopic {
        FanStateCommand(command);
      }
      if topic == FanModeTopic {
        FanModeCommand(command);
      }
    }

    /** The LED branch of on_message. */
    method LedCommand(command: string)
      requires WellFormedLedCommand(command)
      modifies this
      ensures State() == LedStep(old(State()), command)
    {
      LedTokens(CommandTokens(command));
    }

    /** The tokens strtok returns, read through a cursor `next`. */
    method LedTokens(tokens: seq<string>)
      requires WellFormedLedTokens(tokens)
      modifies this
      ensures State() == LedTokensStep(old(State()), tokens)
    {
      var next := 0;
      var p := tokens[next];
      next := next + 1;
      if p == "switch" {
        p := tokens[next];
        next := next + 1;
        Switch(p);
      }
      assert next == ColorArgs(tokens) && p == tokens[next - 1];
      if p == "color" {
        StoreColor(Atoi(tokens[next]), Atoi(tokens[next + 1]), Atoi(tokens[next + 2]));
      }
    }

    /** Stores a colour in led_red, led_green, led_blue and writes it to the pins. */
    method StoreColor(r: int, g: int, b: int)
      modifies this
      ensures State() == old(State()).(color := Rgb(r, g, b), ledPins := Rgb(r, g, b))
    {
      ledRed, ledGreen, ledBlue := r, g, b;
      SetColor(ledRed, ledGreen, ledBlue);
    }

    /** The word after "switch": "on" shows the stored colour, "off" shows black. */
    method Switch(word: string)
      modifies this
      ensures State() == SwitchStep(old(State()), word)
    {
      if word == "on" {
        SetColor(ledRed, ledGreen, ledBlue);
        ledOn := true;
      }
      if word == "off" {
        SetColor(0, 0, 0);
        ledOn := false;
      }
    }

    method FanStateCommand(command: string)
      modifies this
      ensures State() == FanStateStep(old(State()), command)
    {
      if command == "on" {
        fanPin := FanFull;
        fanOn := true;
      } else {
        fanPin := 0;
        fanOn := false;
      }
    }

    method FanModeCommand(command: string)
      modifies this
      ensures State() == FanModeStep(old(State()), command)
    {
      if command == "auto" {
        fanMode := Auto;
      } else {
        fanMode := Manual;
      }
    }

    method ReadDhtSensor(humidity: int, temperature: int)
      requires Valid()
      modifies this
      ensures Valid()
      ensures State() == DhtStep(old(State()), humidity, temperature)
    {
      outbox := outbox + [Message(DhtTopic, DhtPayload(humidity, temperature))];
      if fanMode == Auto && !fanOn {
        if temperature > TurnOnAbove {
          fanOn := true;
          fanPin := FanFull;
          outbox := outbox + [Message(FanStateTopic, "on")];
        }
      }
      if fanMode == Auto && fanOn {
        if temperature < TurnOffBelow {
          fanOn := false;
          fanPin := 0;
          outbox := outbox + [Message(FanStateTopic, "off")];
        }
      }
    }

    method ReadGasSensor(raw: nat)
      modifies this`outbox
      ensures State() == GasStep(old(State()), raw)
    {
      outbox := outbox + [Message(GasTopic, IntToString(raw))];
    }

    method InitHome()
      modifies this`outbox
      ensures State() == InitStep(old(State()))
    {
      outbox := outbox + [Message(InitTopic, InitPayload(State()))];
    }

    /** One pass of loop() at time `current`; the sensor values stand for what
        the DHT22 and the gas sensor's ADC would return. Incoming messages are
        separate OnMessage calls. */
    method Loop(current: nat, humidity: int, temperature: int, gas: nat)
      requires Valid() && current < MillisModulus
      modifies this
      ensures Valid()
      ensures State() == LoopStep(old(State()), current, humidity, temperature, gas)
    {
      if (current - previousMillis) % MillisModulus >= Interval {
        previousMillis := current;
        ReadDhtSensor(humidity, temperature);
        ReadGasSensor(gas);
      }
    }
  }

  // ---------------------------------------------------------------------
  // Properties
  // ---------------------------------------------------------------------

  /** "switch on" lights the LED in the stored colour and changes nothing else. */
  lemma SwitchOn(b: Board, command: string)
    requires WellFormedLedCommand(command)
    requires CommandTokens(command) == ["switch", "on"]
    ensures LedStep(b, command) == b.(ledOn := true, ledPins := b.color)
  {
  }

  /** "switch off" writes black, clears led_on and keeps the stored colour. */
  lemma SwitchOff(b: Board, command: string)
    requires WellFormedLedCommand(command)
    requires CommandTokens(command) == ["switch", "off"]
    ensures LedStep(b, command) == b.(ledOn := false, ledPins := Rgb(0, 0, 0))
  {
  }

  /** "color r g b" stores and writes the colour whatever led_on says, and
      leaves led_on alone: a colour sent while the LED is off lights it. */
  lemma ColorCommand(b: Board, command: string)
    requires WellFormedLedCommand(command)
    requires CommandTokens(command)[0] == "color"
    ensures var ts := CommandTokens(command);
            var c := Rgb(Atoi(ts[1]), Atoi(ts[2]), Atoi(ts[3]));
            LedStep(b, command) == b.(color := c, ledPins := c)
  {
  }

  /** "switch color r g b" is accepted as a colour command. */
  lemma SwitchColor(b: Board, command: string)
    requires WellFormedLedCommand(command)
    requires |CommandTokens(command)| >= 2
    requires CommandTokens(command)[..2] == ["switch", "color"]
    ensures var ts := CommandTokens(command);
            var c := Rgb(Atoi(ts[2]), Atoi(ts[3]), Atoi(ts[4]));
            LedStep(b, command) == b.(color := c, ledPins := c)
  {
    var ts := CommandTokens(command);
    assert ts[0] == "switch" && ts[1] == "color";
  }

  /** Any other LED command is ignored. */
  lemma UnknownLedCommand(b: Board, command: string)
    requires WellFormedLedCommand(command)
    requires var ts := CommandTokens(command);
             ts[0] != "color" && (ts[0] == "switch" ==> ts[1] !in {"on", "off", "color"})
    ensures LedStep(b, command) == b
  {
  }

  /** The fan runs after a fan state message iff its payload is exactly "on". */
  lemma FanStateIff(b: Board, payload: string)
    ensures var r := OnMessageStep(b, FanStateTopic, payload);
            && (r.fanOn <==> CString(payload) == "on")
            && r.fanPin == (if r.fanOn then FanFull else 0)
            && r == b.(fanOn := r.fanOn, fanPin := r.fanPin)
  {
  }

  /** The mode is AUTO after a fan mode message iff its payload is exactly "auto". */
  lemma FanModeIff(b: Board, payload: string)
    ensures var r := OnMessageStep(b, FanModeTopic, payload);
            && (r.fanMode == Auto <==> CString(payload) == "auto")
            && r == b.(fanMode := r.fanMode)
  {
  }

  /** Messages on the other subscribed topics (sensor reports, init) change nothing. */
  lemma OtherTopicsIgnored(b: Board, topic: string, payload: string)
    requires topic !in {LedTopic, FanStateTopic, FanModeTopic}
    ensures OnMessageStep(b, topic, payload) == b
  {
  }

  /** In AUTO mode a stopped fan starts above 30.0 degrees and says so. */
  lemma ThermostatStarts(b: Board, t: int)
    requires b.fanMode == Auto && !b.fanOn && t > TurnOnAbove
    ensures Thermostat(b, t) == b.(fanOn := true, fanPin := FanFull,
                                   outbox := b.outbox + [Message(FanStateTopic, "on")])
  {
  }

  /** In AUTO mode a running fan stops below 29.0 degrees and says so. */
  lemma ThermostatStops(b: Board, t: int)
    requires b.fanMode == Auto && b.fanOn && t < TurnOffBelow
    ensures Thermostat(b, t) == b.(fanOn := false, fanPin := 0,
                                   outbox := b.outbox + [Message(FanStateTopic, "off")])
  {
  }

  /** Inside the band, or outside it on the side the fan already agrees with,
      nothing happens. */
  lemma ThermostatHolds(b: Board, t: int)
    requires b.fanMode == Auto
    requires if b.fanOn then t >= TurnOffBelow else t <= TurnOnAbove
    ensures Thermostat(b, t) == b
  {
  }

  /** A reading switches the fan at most once: either nothing changes or
      exactly one fan message is published and fan_on flips. */
  lemma ThermostatAtMostOneTransition(b: Board, t: int)
    ensures var r := Thermostat(b, t);
            || r == b
            || (&& r.fanOn == !b.fanOn
                && r.outbox == b.outbox + [Message(FanStateTopic, if r.fanOn then "on" else "off")])
  {
  }

  /** In MANUAL mode a reading never touches the fan. */
  lemma ThermostatManual(b: Board, t: int)
    requires b.fanMode == Manual
    ensures Thermostat(b, t) == b
  {
  }

  /** After a reading in AUTO mode the fan agrees with the thresholds. */
  lemma ThermostatAgrees(b: Board, t: int)
    requires b.fanMode == Auto
    ensures t > TurnOnAbove ==> Thermostat(b, t).fanOn
    ensures t < TurnOffBelow ==> !Thermostat(b, t).fanOn
  {
  }

  /** The device also subscribes to its own fan state topic: receiving back
      the message the thermostat published leaves the board as it was. */
  lemma ThermostatEchoIsHarmless(b: Board, t: int)
    requires Thermostat(b, t) != b
    ensures var r := Thermostat(b, t);
            OnMessageStep(r, FanStateTopic, r.outbox[|r.outbox| - 1].payload) == r
  {
    var r := Thermostat(b, t);
    ThermostatAtMostOneTransition(b, t);
    var payload := if r.fanOn then "on" else "off";
    assert r.outbox[|r.outbox| - 1].payload == payload;
    assert CString(payload) == payload;
  }

  /** The interval check survives the wrap of millis(): if `span` milliseconds
      (fewer than 2^32) really passed since `previous`, the unsigned difference
      is exactly `span`, so sensors are read iff at least 2000 ms passed. */
  lemma ElapsedAcrossWrap(previous: nat, span: nat)
    requires previous < MillisModulus && span < MillisModulus
    ensures Elapsed((previous + span) % MillisModulus, previous) == span
    ensures Elapsed((previous + span) % MillisModulus, previous) >= Interval <==> span >= Interval
  {
    var current := (previous + span) % MillisModulus;
    if previous + span < MillisModulus {
      assert current == previous + span;
    } else {
      assert current == previous + span - MillisModulus;
      assert current - previous == span - MillisModulus;
    }
  }

  /** loop() reads the sensors exactly when the interval has elapsed, and then
      remembers the current time. */
  lemma LoopGate(b: Board, current: nat, h: int, t: int, gas: nat)
    ensures var r := LoopStep(b, current, h, t, gas);
            if Elapsed(current, b.previousMillis) >= Interval then
              && r.previousMillis == current
              && |r.outbox| >= |b.outbox| + 2
              && r.outbox[|b.outbox|] == Message(DhtTopic, DhtPayload(h, t))
              && r.outbox[|r.outbox| - 1] == Message(GasTopic, IntToString(gas))
            else r == b
  {
  }

  /** init_home reports six numbers in the order red, green, blue, fan_mode,
      fan_on, led_on, each as an unsigned char in decimal, booleans as 0 or 1. */
  lemma {:induction false} InitPayloadTokens(b: Board)
    ensures Tokens(InitPayload(b), PythonWhitespace)
            == [Byte(b.color.red), Byte(b.color.green), Byte(b.color.blue),
                if b.fanMode then "1" else "0", if b.fanOn then "1" else "0", if b.ledOn then "1" else "0"]
  {
    var ws := [Byte(b.color.red), Byte(b.color.green), Byte(b.color.blue),
               Byte(Flag(b.fanMode)), Byte(Flag(b.fanOn)), Byte(Flag(b.ledOn))];
    TokensOfJoinWords(ws, PythonWhitespace);
  }
}
