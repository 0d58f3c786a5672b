/** The Python server: it turns the device's MQTT reports into Firestore
    documents (a rolling window of sensor readings, the actuator document)
    and a Telegram gas alert, and turns the browser's HTTP requests into MQTT
    commands for the device.

    Class Backend holds the three Firestore documents it writes, the MQTT
    messages it has published and the Telegram messages it has sent. Each
    handler is specified by a function on the value `Store` of those fields;
    the properties are lemmas about those functions. */
module Server {
  import opened Text
  import opened Numbers
  import opened Json
  import opened Mqtt

  /** A sensor document keeps at most this many readings. */
  const WindowSize := 10
  /** A gas value above this raises the alert. */
  const GasThreshold := 2000
  const GasAlert := "GAS detection!"

  const StatusOk := 200
  const StatusBadRequest := 400
  const StatusServerError := 500

  /** A request body that is not valid JSON (Flask answers 400), or the
      decoded JSON object. */
  datatype Body = Malformed | Object(fields: JsonObject)

  /** An HTTP request as a route sees it: whether its content type is JSON,
      and its body. */
  datatype Request = Request(isJson: bool, body: Body)

  /** Everything the server changes. */
  datatype Store = Store(
    temperature: Option<SensorDoc>, // sensor/temperature, None while it does not exist
    humidity: Option<SensorDoc>,    // sensor/humidity
    actuators: Option<JsonObject>,  // rtstate/actuators
    published: seq<Message>,        // every MQTT publish, oldest first
    alerts: seq<string>             // every Telegram message sent
  )

  /** The result of a route: the new store and the response status. */
  datatype Outcome = Outcome(store: Store, status: nat)

  // ---------------------------------------------------------------------
  // The rolling window of readings
  // ---------------------------------------------------------------------

  /** The readings a sensor document holds; a missing document or a missing
      `readings` field gives the empty list. */
  function StoredReadings(doc: Option<SensorDoc>): seq<Reading>
  {
    if doc.None? || doc.value.readings.None? then [] else doc.value.readings.value
  }

  /** The last `n` elements of `s`, or all of them when there are fewer: s[-n:]. */
  function Last<T>(s: seq<T>, n: nat): seq<T>
  {
    if |s| > n then s[|s| - n..] else s
  }

  /** The readings after appending `r` and keeping the newest WindowSize. */
  function Window(readings: seq<Reading>, r: Reading): (w: seq<Reading>)
    ensures 1 <= |w| <= WindowSize && w[|w| - 1] == r
  {
    Last(readings + [r], WindowSize)
  }

  /** The window holds at most WindowSize readings, `r` last, and before it
      the newest of the old readings in their order: only the oldest are
      dropped. */
  lemma WindowShape(readings: seq<Reading>, r: Reading)
    ensures var w := Window(readings, r);
            && 1 <= |w| <= WindowSize
            && |w| == (if |readings| < WindowSize then |readings| + 1 else WindowSize)
            && w[|w| - 1] == r
            && w[..|w| - 1] == readings[|readings| - (|w| - 1)..]
  {
    var all := readings + [r];
    var w := Window(readings, r);
    assert w == all[|all| - |w|..];
    assert w[..|w| - 1] == all[|all| - |w|..|all| - 1];
  }

  /** The readings after appending each of `news` in turn. */
  function Record(readings: seq<Reading>, news: seq<Reading>): seq<Reading>
    decreases |news|
  {
    if news == [] then readings else Record(Window(readings, news[0]), news[1..])
  }

  /** Dropping a prefix leaves the last `n` unchanged while `n` elements remain. */
  lemma LastOfSuffix<T>(c: seq<T>, a: seq<T>, n: nat)
    requires c == [] || |a| >= n
    ensures Last(c + a, n) == Last(a, n)
  {
    if c == [] {
      assert c + a == a;
    } else {
      assert (c + a)[|c + a| - n..] == a[|a| - n..];
    }
  }

  lemma LastOfLast<T>(x: seq<T>, y: seq<T>, n: nat)
    ensures Last(Last(x, n) + y, n) == Last(x + y, n)
  {
    var t := Last(x, n);
    var c := x[..|x| - |t|];
    assert x == c + t;
    assert x + y == c + (t + y);
    LastOfSuffix(c, t + y, n);
  }

  /** However many readings arrive, the document holds the newest WindowSize
      of everything stored before and received since, in arrival order. */
  lemma {:induction false} RecordKeepsNewest(readings: seq<Reading>, news: seq<Reading>)
    requires news != []
    ensures Record(readings, news) == Last(readings + news, WindowSize)
    decreases |news|
  {
    var first := readings + [news[0]];
    var next := Window(readings, news[0]);
    assert next == Last(first, WindowSize);
    if |news| > 1 {
      var rest := news[1..];
      calc {
        Record(readings, news);
        Record(next, rest);
        { RecordKeepsNewest(next, rest); }
        Last(next + rest, WindowSize);
        { LastOfLast(first, rest, WindowSize); }
        Last(first + rest, WindowSize);
        { assert first + rest == readings + news; }
        Last(readings + news, WindowSize);
      }
    } else {
      assert news == [news[0]];
      assert Record(readings, news) == Record(next, []) == next;
    }
  }

  // ---------------------------------------------------------------------
  // on_message
  // ---------------------------------------------------------------------

  /** float() of the first two whitespace-separated words of a DHT report:
      humidity, then temperature. None when there are fewer than two words or
      float() rejects one of them (the IndexError or ValueError that ends the
      callback). */
  function DhtValues(payload: string): (r: Option<(Decimal, Decimal)>)
    ensures r.Some? ==> |Tokens(payload, PythonWhitespace)| >= 2
    ensures r.Some? ==> IsNormal(r.value.0) && IsNormal(r.value.1)
  {
    var ts := Tokens(payload, PythonWhitespace);
    if |ts| < 2 then None
    else
      var humid, temp := PyFloat(ts[0]), PyFloat(ts[1]);
      if humid.None? || temp.None? then None else Some((humid.value, temp.value))
  }

  /** A DHT report appends one reading to each sensor document, each stamped
      with the time it was stored. */
  function DhtStep(s: Store, payload: string, tempStamp: string, humidStamp: string): Store
  {
    var values := DhtValues(payload);
    if values.None? then s else AddReadings(s, values.value.0, values.value.1, tempStamp, humidStamp)
  }

  /** Appends one reading to each sensor document. */
  function AddReadings(s: Store, humid: Decimal, temp: Decimal, tempStamp: string, humidStamp: string): Store
  {
    s.(temperature := Some(SensorDoc(Some(Window(StoredReadings(s.temperature), Reading(tempStamp, temp))))),
       humidity := Some(SensorDoc(Some(Window(StoredReadings(s.humidity), Reading(humidStamp, humid))))))
  }

  /** A gas report sends the alert when its value exceeds the threshold. */
  function GasStep(s: Store, payload: string): Store
  {
    match PyFloat(payload)
    case None => s
    case Some(value) => if GreaterThan(value, GasThreshold) then s.(alerts := s.alerts + [GasAlert]) else s
  }

  /** updateActuators: the actuator document with one field set. None when
      the document does not exist: to_dict() gives None and the assignment
      raises TypeError. */
  function SetField(s: Store, field: string, value: JsonValue): (r: Option<Store>)
    ensures r.Some? <==> s.actuators.Some?
    ensures r.Some? ==> r.value.actuators.Some?
  {
    if s.actuators.None? then None
    else Some(s.(actuators := Some(s.actuators.value[field := value])))
  }

  /** updateColors: the actuator document with red, green and blue set. */
  function SetColors(s: Store, red: JsonValue, green: JsonValue, blue: JsonValue): (r: Option<Store>)
    ensures r.Some? <==> s.actuators.Some?
  {
    if s.actuators.None? then None
    else Some(s.(actuators := Some(s.actuators.value["red" := red]["green" := green]["blue" := blue])))
  }

  /** The fan state report: fanIsOn records whether the payload is exactly "on". */
  function FanStateStep(s: Store, payload: string): Store
  {
    var r := SetField(s, "fanIsOn", JBool(payload == "on"));
    if r.None? then s else r.value
  }

  /** The actuator document an INIT report "red green blue fan_mode fan_on
      led_on" describes; None when it has fewer than six words (IndexError).
      The document has exactly six keys: the colours are the first three
      words as they came, and each flag is false for a word "0" and true otherwise. */
  function InitDoc(payload: string): (r: Option<JsonObject>)
    ensures var ts := Tokens(payload, PythonWhitespace);
            && (r.Some? <==> |ts| >= 6)
            && (r.Some? ==>
                  && r.value.Keys == {"red", "green", "blue", "fanMode", "fanIsOn", "ledIsOn"}
                  && r.value["red"] == JString(ts[0])
                  && r.value["green"] == JString(ts[1])
                  && r.value["blue"] == JString(ts[2])
                  && r.value["fanMode"] == JBool(ts[3] != "0")
                  && r.value["fanIsOn"] == JBool(ts[4] != "0")
                  && r.value["ledIsOn"] == JBool(ts[5] != "0"))
  {
    var ts := Tokens(payload, PythonWhitespace);
    if |ts| < 6 then None
    else Some(map["red" := JString(ts[0]), "green" := JString(ts[1]), "blue" := JString(ts[2]),
                  "fanMode" := JBool(ts[3] != "0"), "fanIsOn" := JBool(ts[4] != "0"),
                  "ledIsOn" := JBool(ts[5] != "0")])
  }

  /** updateActuatorsAll: the INIT report replaces the whole actuator document. */
  function InitStep(s: Store, payload: string): Store
  {
    match InitDoc(payload)
    case None => s
    case Some(data) => s.(actuators := Some(data))
  }

  /** on_message for the four subscribed topics; `tempStamp` and `humidStamp`
      are the two readings of the UTC clock. */
  function OnMessageStep(s: Store, topic: string, payload: string, tempStamp: string, humidStamp: string): Store
  {
    if topic == DhtTopic then DhtStep(s, payload, tempStamp, humidStamp)
    else if topic == GasTopic then GasStep(s, payload)
    else if topic == FanStateTopic then FanStateStep(s, payload)
    else if topic == InitTopic then InitStep(s, payload)
    else s
  }

  // ---------------------------------------------------------------------
  // HTTP routes
  // ---------------------------------------------------------------------

  /** Whether the request is a JSON object holding every key in `keys`;
      every route answers 400 otherwise. */
  predicate Accepts(req: Request, keys: set<string>)
  {
    req.isJson && req.body.Object? && keys <= req.body.fields.Keys
  }

  /** Publish the command, then record it in the actuator document; the
      publish stands even when the update fails with 500. */
  function PublishThenSet(s: Store, m: Message, field: string, value: JsonValue): Outcome
  {
    var p := s.(published := s.published + [m]);
    match SetField(p, field, value)
    case None => Outcome(p, StatusServerError)
    case Some(u) => Outcome(u, StatusOk)
  }

  /** /api/fan/state: fanIsOn is false iff the state is the string "off". */
  function FanStateRoute(s: Store, req: Request): Outcome
  {
    if !Accepts(req, {"state"}) then Outcome(s, StatusBadRequest)
    else
      var state := req.body.fields["state"];
      PublishThenSet(s, Message(FanStateTopic, PyStr(state)), "fanIsOn", JBool(state != JString("off")))
  }

  /** /api/fan/mode: fanMode is false iff the mode is the string "auto". */
  function FanModeRoute(s: Store, req: Request): Outcome
  {
    if !Accepts(req, {"mode"}) then Outcome(s, StatusBadRequest)
    else
      var mode := req.body.fields["mode"];
      PublishThenSet(s, Message(FanModeTopic, PyStr(mode)), "fanMode", JBool(mode != JString("auto")))
  }

  /** /api/light/state: "switch <state>"; ledIsOn is false iff the state is "off". */
  function LedStateRoute(s: Store, req: Request): Outcome
  {
    if !Accepts(req, {"action", "state"}) then Outcome(s, StatusBadRequest)
    else
      var state := req.body.fields["state"];
      PublishThenSet(s, Message(LedTopic, "switch " + PyStr(state)), "ledIsOn", JBool(state != JString("off")))
  }

  /** The LED colour command "color <red> <green> <blue>". */
  function ColorCommand(red: JsonValue, green: JsonValue, blue: JsonValue): string
  {
    "color " + PyStr(red) + " " + PyStr(green) + " " + PyStr(blue)
  }

  /** /api/light/color: publish the colour command, then store the three
      values as they came. */
  function LedColorRoute(s: Store, req: Request): Outcome
  {
    if !Accepts(req, {"action", "red", "green", "blue"}) then Outcome(s, StatusBadRequest)
    else
      var o := req.body.fields;
      var p := s.(published := s.published + [Message(LedTopic, ColorCommand(o["red"], o["green"], o["blue"]))]);
      match SetColors(p, o["red"], o["green"], o["blue"])
      case None => Outcome(p, StatusServerError)
      case Some(u) => Outcome(u, StatusOk)
  }

  // ---------------------------------------------------------------------
  // The server's documents and outputs
  // ---------------------------------------------------------------------

  class Backend {
    var temperature: Option<SensorDoc>
    var humidity: Option<SensorDoc>
    var actuators: Option<JsonObject>
    var published: seq<Message>
    var alerts: seq<string>

    function State(): Store
      reads this
    {
      Store(temperature, humidity, actuators, published, alerts)
    }

    /** The server starts with the documents Firestore holds and has sent nothing. */
    constructor (temperature: Option<SensorDoc>, humidity: Option<SensorDoc>, actuators: Option<JsonObject>)
      ensures State() == Store(temperature, humidity, actuators, [], [])
    {
      this.temperature, this.humidity, this.actuators := temperature, humidity, actuators;
      published, alerts := [], [];
    }

    method Publish(topic: string, payload: string)
      modifies this`published
      ensures published == old(published) + [Message(topic, payload)]
    {
      published := published + [Message(topic, payload)];
    }

    method SendTelegramMessage(text: string)
      modifies this`alerts
      ensures alerts == old(alerts) + [text]
    {
      alerts := alerts + [text];
    }

    /** Read the actuator document, set one field, write it back; false for
      the TypeError a missing document raises. */
    method UpdateActuators(field: string, value: JsonValue) returns (ok: bool)
      modifies this`actuators
      ensures (if ok then Some(State()) else None) == SetField(old(State()), field, value)
      ensures !ok ==> actuators == old(actuators)
    {
      if actuators.None? {
        return false;
      }
      var data := actuators.value;
      data := data[field := value];
      actuators := Some(data);
      return true;
    }

    method UpdateActuatorsAll(data: JsonObject)
      modifies this`actuators
      ensures actuators == Some(data)
    {
      actuators := Some(data);
    }

    method UpdateColors(red: JsonValue, green: JsonValue, blue: JsonValue) returns (ok: bool)
      modifies this`actuators
      ensures (if ok then Some(State()) else None) == SetColors(old(State()), red, green, blue)
      ensures !ok ==> actuators == old(actuators)
    {
      if actuators.None? {
        return false;
      }
      var data := actuators.value;
      data := data["red" := red];
      data := data["green" := green];
      data := data["blue" := blue];
      actuators := Some(data);
      return true;
    }

    /** Appends a reading to the list a sensor document holds and keeps the
        newest WindowSize of them. */
    static method AppendReading(doc: Option<SensorDoc>, r: Reading) returns (newDoc: Option<SensorDoc>)
      ensures newDoc == Some(SensorDoc(Some(Window(StoredReadings(doc), r))))
    {
      var readings := if doc.Some? && doc.value.readings.Some? then doc.value.readings.value else [];
      readings := readings + [r];
      if |readings| > WindowSize {
        readings := readings[|readings| - WindowSize..];
      }
      return Some(SensorDoc(Some(readings)));
    }

    /** on_message: the topics are tested one after the other. */
    method OnMessage(topic: string, payload: string, tempStamp: string, humidStamp: string)
      modifies this
      ensures State() == OnMessageStep(old(State()), topic, payload, tempStamp, humidStamp)
    {
      if topic == DhtTopic {
        OnDht(payload, tempStamp, humidStamp);
      }
      if topic == GasTopic {
        OnGas(payload);
      }
      if topic == FanStateTopic {
        var ok := UpdateActuators("fanIsOn", JBool(payload == "on"));
      }
      if topic == InitTopic {
        OnInit(payload);
      }
    }

    /** A handler that raises ends with a return, as the exception ends the
        callback. */
    method OnDht(payload: string, tempStamp: string, humidStamp: string)
      modifies this
      ensures State() == DhtStep(old(State()), payload, tempStamp, humidStamp)
    {
      var values := DhtValues(payload);
      if values.None? {
        return;
      }
      var (humid, temp) := values.value;
      var temperatureDoc := AppendReading(temperature, Reading(tempStamp, temp));
      var humidityDoc := AppendReading(humidity, Reading(humidStamp, humid));
      temperature, humidity := temperatureDoc, humidityDoc;
    }

    method OnGas(payload: string)
      modifies this
      ensures State() == GasStep(old(State()), payload)
    {
      var value := PyFloat(payload);
      if value.None? {
        return;
      }
      if GreaterThan(value.value, GasThreshold) {
        SendTelegramMessage(GasAlert);
      }
    }

    method OnInit(payload: string)
      modifies this
      ensures State() == InitStep(old(State()), payload)
    {
      var data := InitDoc(payload);
      if data.None? {
        return;
      }
      UpdateActuatorsAll(data.value);
    }

    method FanStateControl(req: Request) returns (status: nat)
      modifies this
      ensures Outcome(State(), status) == FanStateRoute(old(State()), req)
    {
      if !req.isJson || req.body.Malformed? {
        return StatusBadRequest;
      }
      var payload := req.body.fields;
      if "state" !in payload {
        return StatusBadRequest;
      }
      Publish(FanStateTopic, PyStr(payload["state"]));
      var ok := UpdateActuators("fanIsOn", JBool(payload["state"] != JString("off")));
      status := if ok then StatusOk else StatusServerError;
    }

    method FanModeControl(req: Request) returns (status: nat)
      modifies this
      ensures Outcome(State(), status) == FanModeRoute(old(State()), req)
    {
      if !req.isJson || req.body.Malformed? {
        return StatusBadRequest;
      }
      var payload := req.body.fields;
      if "mode" !in payload {
        return StatusBadRequest;
      }
      Publish(FanModeTopic, PyStr(payload["mode"]));
      var ok := UpdateActuators("fanMode", JBool(payload["mode"] != JString("auto")));
      status := if ok then StatusOk else StatusServerError;
    }

    method LedState(req: Request) returns (status: nat)
      modifies this
      ensures Outcome(State(), status) == LedStateRoute(old(State()), req)
    {
      if !req.isJson || req.body.Malformed? {
        return StatusBadRequest;
      }
      var payload := req.body.fields;
      if "action" !in payload {
        return StatusBadRequest;
      }
      if "state" !in payload {
        return StatusBadRequest;
      }
      var command := "switch " + PyStr(payload["state"]);
      Publish(LedTopic, command);
      var ok := UpdateActuators("ledIsOn", JBool(payload["state"] != JString("off")));
      status := if ok then StatusOk else StatusServerError;
    }

    method LedColor(req: Request) returns (status: nat)
      modifies this
      ensures Outcome(State(), status) == LedColorRoute(old(State()), req)
    {
      if !req.isJson || req.body.Malformed? {
        return StatusBadRequest;
      }
      var payload := req.body.fields;
      if "action" !in payload {
        return StatusBadRequest;
      }
      if "red" !in payload || "green" !in payload || "blue" !in payload {
        return StatusBadRequest;
      }
      var command := "color " + PyStr(payload["red"]) + " " + PyStr(payload["green"]) + " " + PyStr(payload["blue"]);
      Publish(LedTopic, command);
      var ok := UpdateColors(payload["red"], payload["green"], payload["blue"]);
      status := if ok then StatusOk else StatusServerError;
    }
  }

  // ---------------------------------------------------------------------
  // Properties
  // ---------------------------------------------------------------------

  /** A DHT report "h t ..." stores float(t) as the newest temperature and
      float(h) as the newest humidity; a report with fewer than two words or a
      word float() rejects changes nothing. Nothing but the two sensor
      documents changes. */
  lemma DhtReport(s: Store, payload: string, tempStamp: string, humidStamp: string)
    ensures var r := OnMessageStep(s, DhtTopic, payload, tempStamp, humidStamp);
            var ts := Tokens(payload, PythonWhitespace);
            && r.actuators == s.actuators && r.published == s.published && r.alerts == s.alerts
            && if |ts| >= 2 && PyFloat(ts[0]).Some? && PyFloat(ts[1]).Some? then
                 && r.temperature == Some(SensorDoc(Some(Window(StoredReadings(s.temperature),
                                                                Reading(tempStamp, PyFloat(ts[1]).value)))))
                 && r.humidity == Some(SensorDoc(Some(Window(StoredReadings(s.humidity),
                                                             Reading(humidStamp, PyFloat(ts[0]).value)))))
               else r == s
  {
  }

  /** A readable report stores one new reading in each document. */
  lemma DhtStored(s: Store, payload: string, tempStamp: string, humidStamp: string, humid: Decimal, temp: Decimal)
    requires DhtValues(payload) == Some((humid, temp))
    ensures OnMessageStep(s, DhtTopic, payload, tempStamp, humidStamp) == AddReadings(s, humid, temp, tempStamp, humidStamp)
  {
  }

  /** Each document keeps at most the ten newest readings, the new one last. */
  lemma AddReadingsNewest(s: Store, humid: Decimal, temp: Decimal, tempStamp: string, humidStamp: string)
    ensures var r := AddReadings(s, humid, temp, tempStamp, humidStamp);
            var temps := StoredReadings(r.temperature);
            var humids := StoredReadings(r.humidity);
            && r.temperature.Some? && r.humidity.Some?
            && 0 < |temps| <= WindowSize && 0 < |humids| <= WindowSize
            && temps[|temps| - 1] == Reading(tempStamp, temp)
            && humids[|humids| - 1] == Reading(humidStamp, humid)
            && r.actuators == s.actuators && r.published == s.published && r.alerts == s.alerts
  {
    var tr, hr := Reading(tempStamp, temp), Reading(humidStamp, humid);
    var r := AddReadings(s, humid, temp, tempStamp, humidStamp);
    assert StoredReadings(r.temperature) == Window(StoredReadings(s.temperature), tr);
    assert StoredReadings(r.humidity) == Window(StoredReadings(s.humidity), hr);
  }

  /** The alert goes out exactly when float() reads a value above 2000, and
      a gas report changes nothing else. */
  lemma GasAlertIff(s: Store, payload: string)
    ensures var r := OnMessageStep(s, GasTopic, payload, "", "");
            var v := PyFloat(payload);
            && (r.alerts == s.alerts + [GasAlert] <==> v.Some? && Value(v.value) > GasThreshold as real)
            && (r.alerts == s.alerts || r.alerts == s.alerts + [GasAlert])
            && r == s.(alerts := r.alerts)
  {
    var v := PyFloat(payload);
    if v.Some? {
      GreaterThanValue(v.value, GasThreshold);
    }
    assert s.alerts != s.alerts + [GasAlert];
  }

  /** updateActuators changes the field it is given and no other: every
      other key keeps its value, and nothing outside the document changes. */
  lemma SetFieldOnlyField(s: Store, field: string, value: JsonValue)
    requires s.actuators.Some?
    ensures var r := SetField(s, field, value).value;
            && r.actuators.value.Keys == s.actuators.value.Keys + {field}
            && r.actuators.value[field] == value
            && (forall k :: k != field ==> Get(r.actuators.value, k) == Get(s.actuators.value, k))
            && r == s.(actuators := r.actuators)
  {
  }

  /** updateColors changes red, green and blue and no other key. */
  lemma SetColorsOnlyColors(s: Store, red: JsonValue, green: JsonValue, blue: JsonValue)
    requires s.actuators.Some?
    ensures var r := SetColors(s, red, green, blue).value;
            && r.actuators.value.Keys == s.actuators.value.Keys + {"red", "green", "blue"}
            && r.actuators.value["red"] == red
            && r.actuators.value["green"] == green
            && r.actuators.value["blue"] == blue
            && (forall k :: k !in {"red", "green", "blue"} ==> Get(r.actuators.value, k) == Get(s.actuators.value, k))
            && r == s.(actuators := r.actuators)
  {
  }

  /** A fan state report sets fanIsOn to whether the payload is exactly "on"
      and touches nothing else; without an actuator document it changes
      nothing. */
  lemma FanStateReport(s: Store, payload: string)
    ensures var r := OnMessageStep(s, FanStateTopic, payload, "", "");
            if s.actuators.None? then r == s
            else
              && r.actuators.Some?
              && r.actuators.value["fanIsOn"] == JBool(payload == "on")
              && (forall k :: k != "fanIsOn" ==> Get(r.actuators.value, k) == Get(s.actuators.value, k))
              && r == s.(actuators := r.actuators)
  {
  }

  /** The INIT report replaces the whole actuator document, whatever it held
      before, and changes nothing else. */
  lemma InitReplacesDocument(s: Store, payload: string)
    ensures var r := OnMessageStep(s, InitTopic, payload, "", "");
            && r.actuators == (if InitDoc(payload).Some? then InitDoc(payload) else s.actuators)
            && r == s.(actuators := r.actuators)
  {
  }

  /** Messages on any other topic change nothing. */
  lemma OtherTopicsIgnored(s: Store, topic: string, payload: string, tempStamp: string, humidStamp: string)
    requires topic !in {DhtTopic, GasTopic, FanStateTopic, InitTopic}
    ensures OnMessageStep(s, topic, payload, tempStamp, humidStamp) == s
  {
  }

  /** What every route does once the request is accepted: one publish, then
      the field set, or 500 with the publish standing when the actuator
      document does not exist. */
  lemma PublishThenSetSpec(s: Store, m: Message, field: string, value: JsonValue)
    ensures var o := PublishThenSet(s, m, field, value);
            && o.store.published == s.published + [m]
            && (o.status == StatusServerError <==> s.actuators.None?)
            && (o.status == StatusOk <==> s.actuators.Some?)
            && (s.actuators.None? ==> o.store == s.(published := o.store.published))
            && (s.actuators.Some? ==>
                  && o.store.actuators == Some(s.actuators.value[field := value])
                  && o.store == s.(published := o.store.published, actuators := o.store.actuators))
  {
  }

  /** /api/light/state answers 400 and changes nothing unless the body is a
      JSON object with both "action" and "state"; otherwise it publishes
      "switch <state>" and sets ledIsOn to false iff the state is "off". */
  lemma LedStateContract(s: Store, req: Request)
    ensures var o := LedStateRoute(s, req);
            if !(req.isJson && req.body.Object? && "action" in req.body.fields && "state" in req.body.fields) then
              o == Outcome(s, StatusBadRequest)
            else
              var state := req.body.fields["state"];
              && o.store.published == s.published + [Message(LedTopic, "switch " + PyStr(state))]
              && o.status != StatusBadRequest
              && (o.status == StatusOk ==> o.store.actuators.value["ledIsOn"] == JBool(state != JString("off")))
  {
    if Accepts(req, {"action", "state"}) {
      var state := req.body.fields["state"];
      PublishThenSetSpec(s, Message(LedTopic, "switch " + PyStr(state)), "ledIsOn", JBool(state != JString("off")));
    }
  }

  /** /api/light/color answers 400 unless "action", "red", "green" and
      "blue" are all present; otherwise it publishes "color r g b" and stores
      the three values. */
  lemma LedColorContract(s: Store, req: Request)
    ensures var o := LedColorRoute(s, req);
            if !(req.isJson && req.body.Object? && "action" in req.body.fields && "red" in req.body.fields
                 && "green" in req.body.fields && "blue" in req.body.fields) then
              o == Outcome(s, StatusBadRequest)
            else
              var f := req.body.fields;
              && o.store.published == s.published + [Message(LedTopic, "color " + PyStr(f["red"]) + " "
                                                                       + PyStr(f["green"]) + " " + PyStr(f["blue"]))]
              && (o.status == StatusServerError <==> s.actuators.None?)
              && (o.status == StatusOk ==>
                    && o.store.actuators.value["red"] == f["red"]
                    && o.store.actuators.value["green"] == f["green"]
                    && o.store.actuators.value["blue"] == f["blue"])
  {
  }

  /** /api/fan/state: 400 without "state"; otherwise the state is published
      as text and fanIsOn is false if it is the string "off" and true otherwise. */
  lemma FanStateContract(s: Store, req: Request)
    ensures var o := FanStateRoute(s, req);
            if !(req.isJson && req.body.Object? && "state" in req.body.fields) then
              o == Outcome(s, StatusBadRequest)
            else
              var state := req.body.fields["state"];
              && o.store.published == s.published + [Message(FanStateTopic, PyStr(state))]
              && (o.status == StatusOk ==> o.store.actuators.value["fanIsOn"] == JBool(state != JString("off")))
  {
    if Accepts(req, {"state"}) {
      var state := req.body.fields["state"];
      PublishThenSetSpec(s, Message(FanStateTopic, PyStr(state)), "fanIsOn", JBool(state != JString("off")));
    }
  }

  /** /api/fan/mode: 400 without "mode"; otherwise the mode is published as
      text and fanMode is false if it is the string "auto" and true otherwise. */
  lemma FanModeContract(s: Store, req: Request)
    ensures var o := FanModeRoute(s, req);
            if !(req.isJson && req.body.Object? && "mode" in req.body.fields) then
              o == Outcome(s, StatusBadRequest)
            else
              var mode := req.body.fields["mode"];
              && o.store.published == s.published + [Message(FanModeTopic, PyStr(mode))]
              && (o.status == StatusOk ==> o.store.actuators.value["fanMode"] == JBool(mode != JString("auto")))
  {
    if Accepts(req, {"mode"}) {
      var mode := req.body.fields["mode"];
      PublishThenSetSpec(s, Message(FanModeTopic, PyStr(mode)), "fanMode", JBool(mode != JString("auto")));
    }
  }
}
