/** The three programs together: what a click in the browser makes the
    server publish and the device do, and what the device reports makes the
    server store and the browser show. Each lemma follows one message
    through the parsers of the programs it crosses. */
module Protocol {
  import opened Text
  import opened Numbers
  import opened Json
  import opened Mqtt
  import Device
  import Server
  import Panel
  import Charts

  // ---------------------------------------------------------------------
  // Text facts the messages rely on
  // ---------------------------------------------------------------------

  lemma {:induction false} CStringOfText(s: string)
    requires '\0' !in s
    ensures CString(s) == s
  {
    if s != [] {
      assert s[0] != '\0';
      assert '\0' !in s[1..];
      CStringOfText(s[1..]);
    }
  }

  lemma NumeralHasNoDelimiters(s: string, delims: set<char>)
    requires AllDigits(s)
    requires forall c :: c in delims ==> !IsDigit(c)
    ensures NoneIn(s, delims) && '\0' !in s
  {
    forall i | 0 <= i < |s| ensures s[i] !in delims && s[i] != '\0' {
      assert IsDigit(s[i]);
    }
  }

  lemma PythonWhitespaceHasNoDigits()
    ensures forall c :: c in PythonWhitespace ==> !IsDigit(c)
  {
  }

  lemma SpaceHasNoDigits()
    ensures forall c :: c in {' '} ==> !IsDigit(c)
  {
  }

  /** "%.2f" text is a sign, digits and a point: no white space, no NUL. */
  lemma Fixed2IsWord(c: int)
    ensures FormatFixed2(c) != [] && NoneIn(FormatFixed2(c), PythonWhitespace)
  {
    var a := Abs(c);
    var whole, frac := NatToString(DropDigits(a, 2)), PaddedDigits(a, 2);
    PythonWhitespaceHasNoDigits();
    NumeralHasNoDelimiters(whole, PythonWhitespace);
    NumeralHasNoDelimiters(frac, PythonWhitespace);
    var s := FormatFixed2(c);
    assert s == (if c < 0 then "-" else "") + whole + "." + frac;
    forall i | 0 <= i < |s| ensures s[i] !in PythonWhitespace {
      var sign := if c < 0 then "-" else "";
      if i < |sign| {
        assert s[i] == '-';
      } else if i < |sign| + |whole| {
        assert s[i] == whole[i - |sign|];
      } else if i == |sign| + |whole| {
        assert s[i] == '.';
      } else {
        assert s[i] == frac[i - |sign| - |whole| - 1];
      }
    }
  }

  // ---------------------------------------------------------------------
  // Browser -> server -> device
  // ---------------------------------------------------------------------

  lemma NulFreeConcat(a: string, b: string)
    requires '\0' !in a && '\0' !in b
    ensures '\0' !in a + b
  {
  }

  lemma JoinFour(a: string, b: string, c: string, d: string)
    ensures JoinWords([a, b, c, d]) == a + " " + b + " " + c + " " + d
  {
    var ws := [a, b, c, d];
    assert ws[1..] == [b, c, d] && ws[1..][1..] == [c, d] && ws[1..][1..][1..] == [d];
    assert JoinWords([c, d]) == c + " " + d;
    assert JoinWords([b, c, d]) == b + " " + (c + " " + d);
    assert JoinWords(ws) == a + " " + (b + " " + (c + " " + d));
    assert a + " " + (b + " " + (c + " " + d)) == a + " " + b + " " + c + " " + d;
  }

  /** The command the server publishes for a colour request, as the device's
      strtok splits it. */
  lemma ColorCommandTokens(R: string, G: string, B: string)
    requires IsNumeral(R) && IsNumeral(G) && IsNumeral(B)
    ensures var command := Server.ColorCommand(JString(R), JString(G), JString(B));
            && '\0' !in command
            && Device.CommandTokens(command) == ["color", R, G, B]
  {
    var ws := ["color", R, G, B];
    var command := Server.ColorCommand(JString(R), JString(G), JString(B));
    assert command == "color " + R + " " + G + " " + B;
    JoinFour("color", R, G, B);
    SpaceHasNoDigits();
    NumeralHasNoDelimiters(R, {' '});
    NumeralHasNoDelimiters(G, {' '});
    NumeralHasNoDelimiters(B, {' '});
    assert NoneIn("color", {' '});
    assert forall i :: 0 <= i < |ws| ==> ws[i] != [] && NoneIn(ws[i], {' '});
    TokensOfJoinWords(ws, {' '});
    assert JoinWords(ws) == command;
    assert Device.CommandTokens(command) == Tokens(JoinWords(ws), {' '});
    NulFreeConcat("color " + R, " ");
    NulFreeConcat("color " + R + " ", G);
    NulFreeConcat("color " + R + " " + G, " ");
    NulFreeConcat("color " + R + " " + G + " ", B);
  }

  /** A colour picked in the browser reaches the server as three decimal
      strings, which the server publishes in a colour command. */
  lemma ColorRequestPublished(hex: string, s: Server.Store)
    ensures var c := Panel.HexToRgb(hex);
            var R, G, B := NatToString(c.r), NatToString(c.g), NatToString(c.b);
            var o := Server.LedColorRoute(s, Server.Request(true, Server.Object(Panel.ColorChoice(hex))));
            && o.store.published == s.published + [Message(LedTopic, Server.ColorCommand(JString(R), JString(G), JString(B)))]
            && (o.status == Server.StatusOk <==> s.actuators.Some?)
            && (o.status == Server.StatusOk ==>
                  && o.store.actuators.value["red"] == JString(R)
                  && o.store.actuators.value["green"] == JString(G)
                  && o.store.actuators.value["blue"] == JString(B))
  {
    var req := Server.Request(true, Server.Object(Panel.ColorChoice(hex)));
    Server.LedColorContract(s, req);
  }

  /** The device sets exactly the colour the browser's picker showed. */
  lemma ColorCommandApplied(R: string, G: string, B: string, b: Device.Board)
    requires IsNumeral(R) && IsNumeral(G) && IsNumeral(B)
    ensures var m := Message(LedTopic, Server.ColorCommand(JString(R), JString(G), JString(B)));
            var c := Device.Rgb(NumeralValue(R), NumeralValue(G), NumeralValue(B));
            && Device.WellFormedMessage(m.topic, m.payload)
            && Device.OnMessageStep(b, m.topic, m.payload) == b.(color := c, ledPins := c)
  {
    var command := Server.ColorCommand(JString(R), JString(G), JString(B));
    ColorCommandTokens(R, G, B);
    CStringOfText(command);
    var ts := Device.CommandTokens(command);
    assert ts == ["color", R, G, B];
    assert Device.ColorArgs(ts) == 1;
    assert Device.WellFormedLedCommand(command);
    Device.ColorCommand(b, command);
  }

  /** A colour picked in the browser ends up, channel by channel, as the
      device's stored and displayed colour. */
  lemma ColorEndToEnd(hex: string, s: Server.Store, b: Device.Board)
    ensures var c := Panel.HexToRgb(hex);
            var o := Server.LedColorRoute(s, Server.Request(true, Server.Object(Panel.ColorChoice(hex))));
            var m := o.store.published[|o.store.published| - 1];
            && Device.WellFormedMessage(m.topic, m.payload)
            && Device.OnMessageStep(b, m.topic, m.payload)
               == b.(color := Device.Rgb(c.r, c.g, c.b), ledPins := Device.Rgb(c.r, c.g, c.b))
  {
    var c := Panel.HexToRgb(hex);
    var R, G, B := NatToString(c.r), NatToString(c.g), NatToString(c.b);
    ColorRequestPublished(hex, s);
    NatToStringRoundTrip(c.r);
    NatToStringRoundTrip(c.g);
    NatToStringRoundTrip(c.b);
    ColorCommandApplied(R, G, B, b);
  }

  /** The device's reading of "switch on" and "switch off". */
  lemma SwitchCommandApplied(state: string, b: Device.Board)
    requires state == "on" || state == "off"
    ensures var m := Message(LedTopic, "switch " + state);
            && Device.WellFormedMessage(m.topic, m.payload)
            && Device.OnMessageStep(b, m.topic, m.payload).ledOn == (state == "on")
  {
    var command := "switch " + state;
    assert '\0' !in command;
    CStringOfText(command);
    assert NoneIn(state, {' '});
    assert JoinWords(["switch", state]) == command;
    TokensOfJoinWords(["switch", state], {' '});
    if state == "on" {
      Device.SwitchOn(b, command);
    } else {
      Device.SwitchOff(b, command);
    }
  }

  /** The light button turns the device's LED the other way from what the
      browser's cache says, and the server records the same. */
  lemma LightToggleEndToEnd(cached: bool, s: Server.Store, b: Device.Board)
    ensures var o := Server.LedStateRoute(s, Server.Request(true, Server.Object(Panel.LightToggle(cached))));
            var m := o.store.published[|o.store.published| - 1];
            && m == Message(LedTopic, "switch " + (if cached then "off" else "on"))
            && (o.status == Server.StatusOk ==> o.store.actuators.value["ledIsOn"] == JBool(!cached))
            && Device.WellFormedMessage(m.topic, m.payload)
            && Device.OnMessageStep(b, m.topic, m.payload).ledOn == !cached
  {
    Server.LedStateContract(s, Server.Request(true, Server.Object(Panel.LightToggle(cached))));
    SwitchCommandApplied(if cached then "off" else "on", b);
  }

  /** The fan button runs the device's fan iff the cache said it was off;
      server, device and the server's own echo of the publish agree. */
  lemma FanToggleEndToEnd(cached: bool, s: Server.Store, b: Device.Board, stamp: string)
    ensures var o := Server.FanStateRoute(s, Server.Request(true, Server.Object(Panel.FanToggle(cached))));
            var m := o.store.published[|o.store.published| - 1];
            && m == Message(FanStateTopic, if cached then "off" else "on")
            && (o.status == Server.StatusOk ==> o.store.actuators.value["fanIsOn"] == JBool(!cached))
            && Device.OnMessageStep(b, m.topic, m.payload).fanOn == !cached
            && (o.status == Server.StatusOk ==>
                  Server.OnMessageStep(o.store, m.topic, m.payload, stamp, stamp).actuators == o.store.actuators)
  {
    var state := if cached then "off" else "on";
    Server.FanStateContract(s, Server.Request(true, Server.Object(Panel.FanToggle(cached))));
    CStringOfText(state);
    var o := Server.FanStateRoute(s, Server.Request(true, Server.Object(Panel.FanToggle(cached))));
    if o.status == Server.StatusOk {
      var d := o.store.actuators.value;
      assert d["fanIsOn"] == JBool(state == "on");
      assert d["fanIsOn" := JBool(state == "on")] == d;
    }
  }

  /** The mode button: MANUAL in the cache asks for AUTO. The device's mode
      and the server's fanMode field end up equal (AUTO is false in both). */
  lemma ModeToggleEndToEnd(cached: bool, s: Server.Store, b: Device.Board)
    ensures var o := Server.FanModeRoute(s, Server.Request(true, Server.Object(Panel.ModeToggle(cached))));
            var m := o.store.published[|o.store.published| - 1];
            var r := Device.OnMessageStep(b, m.topic, m.payload);
            && m == Message(FanModeTopic, if cached then "auto" else "manual")
            && r.fanMode == !cached
            && (o.status == Server.StatusOk ==> o.store.actuators.value["fanMode"] == JBool(r.fanMode))
  {
    var mode := if cached then "auto" else "manual";
    Server.FanModeContract(s, Server.Request(true, Server.Object(Panel.ModeToggle(cached))));
    CStringOfText(mode);
  }

  /** The browser sends only "on" and "off", but the two server paths that
      write fanIsOn read other states differently: over HTTP any state but
      "off" counts as running, over MQTT only "on" does, and so does the
      device. The server hears its own publish, so the MQTT reading wins. */
  lemma FanStateMappingsDiffer(s: Server.Store, b: Device.Board, stamp: string)
    requires s.actuators.Some?
    ensures var req := Server.Request(true, Server.Object(map["state" := JString("ON")]));
            var o := Server.FanStateRoute(s, req);
            var m := o.store.published[|o.store.published| - 1];
            && o.status == Server.StatusOk
            && o.store.actuators.value["fanIsOn"] == JBool(true)
            && !Device.OnMessageStep(b, m.topic, m.payload).fanOn
            && Server.OnMessageStep(o.store, m.topic, m.payload, stamp, stamp).actuators.value["fanIsOn"] == JBool(false)
  {
    var req := Server.Request(true, Server.Object(map["state" := JString("ON")]));
    Server.FanStateContract(s, req);
    CStringOfText("ON");
  }

  // ---------------------------------------------------------------------
  // Device -> server -> browser
  // ---------------------------------------------------------------------

  /** The DHT report's two numbers as the server splits and reads them: the
      values the device printed, in hundredths. */
  lemma DhtReportValues(humidity: int, temperature: int)
    ensures Server.DhtValues(Device.DhtPayload(humidity, temperature))
            == Some((Normalize(humidity, 2), Normalize(temperature, 2)))
  {
    var H, T := FormatFixed2(humidity), FormatFixed2(temperature);
    Fixed2IsWord(humidity);
    Fixed2IsWord(temperature);
    assert JoinWords([H, T]) == Device.DhtPayload(humidity, temperature);
    TokensOfJoinWords([H, T], PythonWhitespace);
    PyFloatOfFixed2(humidity);
    PyFloatOfFixed2(temperature);
  }

  /** A device reading is stored as the newest reading of each sensor, with
      the value the device measured. */
  lemma DhtEndToEnd(humidity: int, temperature: int, s: Server.Store, tStamp: string, hStamp: string)
    ensures var r := Server.OnMessageStep(s, DhtTopic, Device.DhtPayload(humidity, temperature), tStamp, hStamp);
            var temps := Server.StoredReadings(r.temperature);
            var humids := Server.StoredReadings(r.humidity);
            && r.temperature.Some? && r.humidity.Some?
            && temps != [] && humids != []
            && temps[|temps| - 1] == Reading(tStamp, Normalize(temperature, 2))
            && humids[|humids| - 1] == Reading(hStamp, Normalize(humidity, 2))
            && Value(temps[|temps| - 1].value) == temperature as real / 100.0
            && Value(humids[|humids| - 1].value) == humidity as real / 100.0
  {
    DhtReportValues(humidity, temperature);
    NewestReadings(s, Device.DhtPayload(humidity, temperature), tStamp, hStamp, Normalize(humidity, 2), Normalize(temperature, 2));
    Fixed2Value(temperature);
    Fixed2Value(humidity);
  }

  lemma NewestReadings(s: Server.Store, payload: string, tStamp: string, hStamp: string, humid: Decimal, temp: Decimal)
    requires Server.DhtValues(payload) == Some((humid, temp))
    ensures var r := Server.OnMessageStep(s, DhtTopic, payload, tStamp, hStamp);
            var temps := Server.StoredReadings(r.temperature);
            var humids := Server.StoredReadings(r.humidity);
            && r.temperature.Some? && r.humidity.Some?
            && temps != [] && humids != []
            && temps[|temps| - 1] == Reading(tStamp, temp)
            && humids[|humids| - 1] == Reading(hStamp, humid)
  {
    Server.DhtStored(s, payload, tStamp, hStamp, humid, temp);
    Server.AddReadingsNewest(s, humid, temp, tStamp, hStamp);
  }

  /** The browser's readout then shows the newest value's shortest decimal
      text with its unit. */
  lemma ReadoutShowsNewest(doc: SensorDoc, d: Decimal, fbDoc: string, unit: string, v: Charts.View)
    requires IsNormal(d)
    requires doc.readings.Some? && doc.readings.value != []
    requires doc.readings.value[|doc.readings.value| - 1].value == d
    requires (fbDoc, unit) in {("temperature", Charts.TemperatureUnit), ("humidity", Charts.HumidityUnit)}
    ensures var r := Charts.SnapshotStep(v, fbDoc, Some(doc));
            (if fbDoc == "temperature" then r.realTemp else r.realHumid) == JsNumberText(d) + unit
  {
    Charts.ReadoutOfSensor(v, fbDoc, doc);
    NormalizeNormal(d);
  }

  /** The text the browser shows is one float() reads back as the stored value. */
  lemma ReadoutReadsBack(d: Decimal)
    requires IsNormal(d)
    ensures PyFloat(Charts.NumberText(d)) == Some(d)
  {
    NormalizeNormal(d);
    PyFloatOfJsNumberText(d);
  }

  /** The gas alert goes out iff the raw ADC value the device read exceeds 2000. */
  lemma GasEndToEnd(b: Device.Board, raw: nat, s: Server.Store)
    ensures var d := Device.GasStep(b, raw);
            var m := d.outbox[|d.outbox| - 1];
            var r := Server.OnMessageStep(s, m.topic, m.payload, "", "");
            && (r.alerts == s.alerts + [Server.GasAlert] <==> raw > Server.GasThreshold)
            && (raw <= Server.GasThreshold ==> r == s)
  {
    PyFloatOfIntToString(raw);
    Server.GasAlertIff(s, IntToString(raw));
    GreaterThanValue(Decimal(raw, 0), Server.GasThreshold);
    assert s.alerts != s.alerts + [Server.GasAlert];
  }

  /** init_home's report gives the server the device's three flags and
      colour bytes, and the browser's snapshot of that document caches the
      same flags. */
  lemma InitEndToEnd(b: Device.Board, s: Server.Store, p: Panel.Page)
    ensures var r := Server.OnMessageStep(s, InitTopic, Device.InitPayload(b), "", "");
            && r.actuators == Some(map["red" := JString(Device.Byte(b.color.red)),
                                       "green" := JString(Device.Byte(b.color.green)),
                                       "blue" := JString(Device.Byte(b.color.blue)),
                                       "fanMode" := JBool(b.fanMode),
                                       "fanIsOn" := JBool(b.fanOn),
                                       "ledIsOn" := JBool(b.ledOn)])
            && var q := Panel.SnapshotStep(p, r.actuators);
               q.fanMode == b.fanMode && q.fanIsOn == b.fanOn && q.ledIsOn == b.ledOn
  {
    var payload := Device.InitPayload(b);
    var doc := map["red" := JString(Device.Byte(b.color.red)),
                   "green" := JString(Device.Byte(b.color.green)),
                   "blue" := JString(Device.Byte(b.color.blue)),
                   "fanMode" := JBool(b.fanMode),
                   "fanIsOn" := JBool(b.fanOn),
                   "ledIsOn" := JBool(b.ledOn)];
    Device.InitPayloadTokens(b);
    assert Server.InitDoc(payload) == Some(doc);
    Server.InitReplacesDocument(s, payload);
    Panel.SnapshotOverwritesFlags(p, Some(doc));
    assert Get(doc, "fanMode") == Some(JBool(b.fanMode));
    assert Get(doc, "fanIsOn") == Some(JBool(b.fanOn));
    assert Get(doc, "ledIsOn") == Some(JBool(b.ledOn));
  }

  /** When the thermostat switches the fan, the server's echo of the
      device's publish makes the stored fanIsOn equal the device's fan_on. */
  lemma ThermostatReachesServer(b: Device.Board, t: int, s: Server.Store)
    requires s.actuators.Some?
    requires Device.Thermostat(b, t) != b
    ensures var d := Device.Thermostat(b, t);
            var m := d.outbox[|d.outbox| - 1];
            Server.OnMessageStep(s, m.topic, m.payload, "", "").actuators.value["fanIsOn"] == JBool(d.fanOn)
  {
    Device.ThermostatAtMostOneTransition(b, t);
  }
}
