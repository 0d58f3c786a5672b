# Smart home: device, server and dashboard as one verified model

The smart home has three programs that talk through two text protocols:

- **ESP32 firmware** (`esp32/src/main.cpp`). It drives an RGB LED and a fan. It reads a DHT22 and a gas sensor every 2000 ms. It publishes its readings on MQTT and obeys LED and fan commands it receives on MQTT. In AUTO mode a two-threshold thermostat switches the fan: on above 30.0 °C, off below 29.0 °C.
- **Python server** (`server/server.py`).
  - It subscribes to the device's reports. It keeps the ten newest readings of each sensor in a Firestore document, mirrors fan and INIT reports into the actuator document, and sends a Telegram alert when the gas value exceeds 2000.
  - Four HTTP routes turn the browser's JSON requests into MQTT commands for the device and into updates of the actuator document.
- **Browser dashboard** (`frontend/smart-home.js`, `frontend/charts.js`).
  - It caches three flags from the actuator document and shows them on buttons. It turns clicks and colour choices into POST requests.
  - It plots each sensor document's readings and shows the newest value with its unit.

The model has one module per program file:

- `Device`: the firmware. Class `Esp32` holds its globals, the pin levels and a publish log.
- `Server`: the server. Class `Backend` holds the three documents, the publish log and the alerts sent.
- `Panel`: `smart-home.js`. Class `Dashboard` holds the flags, the four page elements and the requests sent.
- `Charts`: `charts.js`. Classes `Chart` and `Readouts`, and the snapshot method.

Shared modules:

- `Text`: decimal numerals, word splitting (`strtok` and `str.split()`), C strings.
- `Numbers`: the number formats that cross the wire. Sensor values are exact decimal fractions (`Decimal`). `"%.2f"` and `itoa` produce them, Python's `float()` reads them, JavaScript's number-to-string prints them.
- `Json`: JSON scalars, Python's `str()` and JavaScript truthiness.
- `Mqtt`: the topics.
- `Protocol`: lemmas that follow one message through two or three programs.

Every handler and route method is specified by a function on a value of the whole state: `Board`, `Store`, `Page` or `View`. The one-field helpers (`Device.Esp32.SetColor`, `Server.Backend.Publish`, `Server.Backend.SendTelegramMessage`, `Server.Backend.UpdateActuatorsAll`, `Panel.Dashboard.SendToServer`) state their new field under a frame that names only that field. The properties are lemmas about those functions. Temperatures and humidities are integers in hundredths: the DHT22 reports tenths, so `"%.2f"` prints them exactly.

The dashboard's buttons compute their request from the cached flags, and only the snapshot callback changes those flags. Two clicks without a snapshot between them therefore send the same request twice, not opposite ones (`Panel.RepeatedClicksRepeat`).

## Model

| member | source | states |
|---|---|---|
| Device.Esp32.constructor | esp32/src/main.cpp:30-39 | Power-up state: colour (255,255,0), MANUAL mode, fan and LED off, previousMillis 0, nothing published. |
| Device.Esp32.SetColor | esp32/src/main.cpp:45-49 | The three LED pins show exactly the given levels. |
| Device.Esp32.OnMessage | esp32/src/main.cpp:51-113 | The payload is read as a C string and dispatched on the exact topic. The new state is `OnMessageStep`, whose branches the lemmas below pin down. |
| Device.Esp32.LedCommand | esp32/src/main.cpp:58-85 | An LED command acts through its space-separated tokens, as `strtok` splits them. |
| Device.Esp32.LedTokens | esp32/src/main.cpp:63-84 | A token cursor walks the command: an optional "switch" word, then a colour when the last word read is "color". The result is `LedTokensStep`. |
| Device.Esp32.Switch | esp32/src/main.cpp:65-77 | The word after "switch": "on" shows the stored colour, "off" shows black, any other word does nothing. |
| Device.Esp32.StoreColor | esp32/src/main.cpp:79-84 | Stores r, g, b in led_red/green/blue and writes them to the pins. Nothing else changes. |
| Device.Esp32.FanStateCommand | esp32/src/main.cpp:87-99 | Fan state command: the fan runs at 255 on "on" and stops otherwise. |
| Device.Esp32.FanModeCommand | esp32/src/main.cpp:101-112 | Fan mode command: "auto" selects AUTO, anything else MANUAL. |
| Device.Esp32.ReadDhtSensor | esp32/src/main.cpp:148-170 | Publishes the "%.2f %.2f" report, then runs the two sequential thermostat tests. |
| Device.Esp32.ReadGasSensor | esp32/src/main.cpp:172-176 | Publishes the raw ADC value in decimal. |
| Device.Esp32.InitHome | esp32/src/main.cpp:178-182 | Publishes the six-number state report. |
| Device.Esp32.Loop | esp32/src/main.cpp:200-210 | When the 32-bit unsigned elapsed time reaches 2000 ms: remember the time, read the DHT, read the gas sensor. Otherwise nothing changes. Keeps previousMillis below 2^32. |
| Device.SwitchOn | esp32/src/main.cpp:65-72 | "switch on" sets led_on and shows the stored colour. The stored colour and everything else stay. |
| Device.SwitchOff | esp32/src/main.cpp:73-76 | "switch off" clears led_on and shows black. The stored colour stays. |
| Device.ColorCommand | esp32/src/main.cpp:79-84 | "color r g b" stores and shows atoi of the three tokens. led_on is untouched, so a colour sent while the LED is off lights it. |
| Device.SwitchColor | esp32/src/main.cpp:65-84 | "switch color r g b" also sets the colour, because the word tested against "color" is the last one strtok returned. |
| Device.UnknownLedCommand | esp32/src/main.cpp:63-84 | Any other LED command leaves the whole board unchanged. |
| Device.FanStateIff | esp32/src/main.cpp:92-98 | After a fan state message, the fan runs iff the payload is exactly "on". The pin is 255 or 0 accordingly. Nothing else changes. |
| Device.FanModeIff | esp32/src/main.cpp:107-111 | After a fan mode message, the mode is AUTO iff the payload is exactly "auto". Nothing else changes. |
| Device.OtherTopicsIgnored | esp32/src/main.cpp:58-112 | Messages on topics other than LED, fan state and fan mode change nothing. |
| Device.ThermostatStarts | esp32/src/main.cpp:155-161 | AUTO mode, fan off, above 30.0: the fan starts, the pin goes to 255 and "on" is published. |
| Device.ThermostatStops | esp32/src/main.cpp:163-169 | AUTO mode, fan on, below 29.0: the fan stops, the pin goes to 0 and "off" is published. |
| Device.ThermostatHolds | esp32/src/main.cpp:155-169 | Inside the band, or on the side the fan already agrees with, nothing happens. |
| Device.ThermostatAtMostOneTransition | esp32/src/main.cpp:155-169 | One reading flips fan_on at most once and then publishes exactly one matching message. Otherwise the board is unchanged. |
| Device.ThermostatManual | esp32/src/main.cpp:155-169 | In MANUAL mode a reading never touches the fan. |
| Device.ThermostatAgrees | esp32/src/main.cpp:155-169 | After an AUTO reading, the fan runs above 30.0 and is off below 29.0. |
| Device.ThermostatEchoIsHarmless | esp32/src/main.cpp:87-98 | Receiving back the fan message the thermostat just published leaves the board as it is. |
| Device.ElapsedAcrossWrap | esp32/src/main.cpp:204 | The unsigned 32-bit difference equals the true elapsed time, for any span under 2^32, even across the wrap of millis(). So sensors are read iff 2000 ms really passed. |
| Device.LoopGate | esp32/src/main.cpp:201-208 | loop() reads exactly when the elapsed time is at least 2000. It then sets previousMillis to now and publishes the DHT report followed, last, by the gas report. Otherwise nothing changes. |
| Device.InitPayloadTokens | esp32/src/main.cpp:180 | The init report splits into exactly six words: red, green, blue as "%hhu", then fan_mode, fan_on, led_on as "1" or "0". |
| Device.Byte | esp32/src/main.cpp:180 | "%hhu" prints a numeral without white space whose value is the argument mod 256. |
| Device.Atoi | esp32/src/main.cpp:80-82 | atoi reads a decimal numeral as its value, and a minus sign followed by a numeral as the negated value; the value is unbounded (see Left out). |
| Device.Thermostat | esp32/src/main.cpp:155-169 | A thermostat pass changes only the fan state, the fan pin and the published messages; it publishes at most one fan-state message, and in MANUAL mode it changes nothing. |
| Text.CString | esp32/src/main.cpp:59-61 | The command buffer is the payload up to its first NUL: a prefix without NUL, followed by NUL or the end. |
| Text.Tokens | server/server.py:89 | Splitting yields nonempty words without delimiters. |
| Text.TokensOfJoinWords | esp32/src/main.cpp:63 | Splitting words joined by single spaces gives back exactly those words. |
| Text.NatToStringRoundTrip | frontend/smart-home.js:35-37 | A channel's decimal string is a numeral whose value is the channel. |
| Numbers.PyFloat | server/server.py:90-91 | float() on decimal text: surrounding whitespace, sign, digits and fraction. Any result is in normal form. |
| Numbers.FormatFixed2 | esp32/src/main.cpp:152 | "%.2f" text has exactly two digits after its point and starts with a minus sign exactly for a negative value. |
| Numbers.JsNumberText | frontend/charts.js:86 | JavaScript's number text has no point for an integer, and otherwise its point sits `scale` characters from the end with no trailing zero. |
| Numbers.PyFloatOfFixed2 | esp32/src/main.cpp:152 | float() reads back exactly the value the firmware printed with "%.2f". |
| Numbers.Fixed2Value | esp32/src/main.cpp:152 | That value is the hundredths divided by 100. |
| Numbers.PyFloatOfFixedText | esp32/src/main.cpp:152 | float() inverts fixed-point text of any scale, negative values included. |
| Numbers.PyFloatOfIntToString | esp32/src/main.cpp:174 | float() reads back the integer itoa printed. |
| Numbers.PyFloatOfJsNumberText | frontend/charts.js:86 | float() inverts JavaScript's number text on normal forms. |
| Numbers.NormalizeKeepsValue | frontend/charts.js:86 | Dropping trailing fraction zeros keeps the value. |
| Numbers.GreaterThanValue | server/server.py:119 | The integer test on a decimal decides value > k exactly. |
| Json.PyStr | server/server.py:150 | str() of a string is the string itself, and str() of an integer is text float() reads back as that integer. |
| Json.Truthy | frontend/smart-home.js:66-68 | The falsy values are exactly undefined, null, false, 0 and the empty string. |
| Server.WindowShape | server/server.py:94-102 | After appending, a document holds between 1 and 10 readings, the new one last. Before it come the newest old readings in their order: only the oldest are dropped. |
| Server.RecordKeepsNewest | server/server.py:99-101 | After any number of reports, a document holds the last 10 of all readings ever stored, in arrival order. |
| Server.Window | server/server.py:99-101 | After appending, the readings number between 1 and 10 and the new one is last. |
| Server.Backend.AppendReading | server/server.py:94-102 | The readings list (empty for a missing document or field), with the new reading appended, cut to the last 10. |
| Server.Backend.constructor | server/server.py:35-37 | The server starts from the documents Firestore holds, with nothing published or sent. |
| Server.Backend.Publish | server/server.py:149 | A publish appends one message to the log. |
| Server.Backend.SendTelegramMessage | server/server.py:43-51 | Sending appends the text to the alerts. |
| Server.SetField | server/server.py:65-69 | updateActuators succeeds iff the actuator document exists, which is when to_dict() is not None. |
| Server.SetColors | server/server.py:75-81 | updateColors succeeds iff the actuator document exists. |
| Server.Backend.UpdateActuators | server/server.py:65-69 | Read, set one field, write back. When the document is missing, false and the document unchanged. |
| Server.Backend.UpdateActuatorsAll | server/server.py:71-73 | The actuator document becomes the given data. |
| Server.Backend.UpdateColors | server/server.py:75-81 | Read, set red, green, blue, write back. When the document is missing, false and the document unchanged. |
| Server.Backend.OnMessage | server/server.py:84-135 | The four topics are tested in turn. The new store is `OnMessageStep`. |
| Server.Backend.OnDht | server/server.py:88-115 | A readable report appends one reading to each sensor document. Too few words or a word float() rejects ends the callback with nothing changed. |
| Server.Backend.OnGas | server/server.py:117-120 | The alert is sent when float() of the payload exceeds 2000. |
| Server.Backend.OnInit | server/server.py:125-135 | A report with six words or more replaces the actuator document. A shorter one changes nothing. |
| Server.Backend.FanStateControl | server/server.py:139-151 | The status and the new store are those of `FanStateRoute`, pinned down by `FanStateContract`. |
| Server.Backend.FanModeControl | server/server.py:154-167 | The status and the new store are those of `FanModeRoute`, pinned down by `FanModeContract`. |
| Server.Backend.LedState | server/server.py:170-186 | The status and the new store are those of `LedStateRoute`, pinned down by `LedStateContract`. |
| Server.Backend.LedColor | server/server.py:189-205 | The status and the new store are those of `LedColorRoute`, pinned down by `LedColorContract`. |
| Server.DhtReport | server/server.py:88-113 | The first word is stored as humidity and the second as temperature, each via float(). A report float() rejects changes nothing; "nan" counts as rejected here (see Left out). Actuators, publishes and alerts never change. |
| Server.DhtValues | server/server.py:89-91 | A readable report has at least two words, and float() gives both values in normal form. |
| Server.DhtStored | server/server.py:88-113 | A report whose two values float() reads is stored as one new reading per document. |
| Server.AddReadingsNewest | server/server.py:94-113 | Each document then holds 1 to 10 readings, the new one last. Nothing outside the two documents changes. |
| Server.GasAlertIff | server/server.py:117-120 | Exactly one alert is sent iff float() reads a value above 2000. Nothing else changes. |
| Server.SetFieldOnlyField | server/server.py:65-69 | updateActuators sets the given field and keeps every other key and the rest of the store. |
| Server.SetColorsOnlyColors | server/server.py:75-81 | updateColors sets red, green and blue and keeps every other key. |
| Server.FanStateReport | server/server.py:122-123 | On the fan state topic, fanIsOn becomes whether the payload is exactly "on". Nothing else changes. Without a document, nothing changes at all. |
| Server.InitDoc | server/server.py:126-135 | An INIT report with six or more words gives a document with exactly six keys: the first three words verbatim as colours, and each flag false if its word is "0" and true otherwise. Fewer words give none. |
| Server.InitReplacesDocument | server/server.py:125-135 | A parsed INIT report replaces the whole actuator document, whatever it held. Nothing else changes. |
| Server.OtherTopicsIgnored | server/server.py:88-135 | Messages on other topics change nothing. |
| Server.PublishThenSetSpec | server/server.py:149-151 | An accepted route publishes once. It then sets its field and answers 200 when the document exists, else answers 500 with the publish standing. |
| Server.LedStateContract | server/server.py:170-186 | Without a JSON object holding both "action" and "state": 400 and no change. Otherwise "switch <state>" is published, and ledIsOn is false iff the state is "off". |
| Server.LedColorContract | server/server.py:189-205 | 400 unless "action", "red", "green" and "blue" are all present. Otherwise "color r g b" is published and the three values are stored as they came. 500 iff the document is missing. |
| Server.FanStateContract | server/server.py:139-151 | 400 without "state". Otherwise the state is published as text, and fanIsOn is false if it is "off" and true otherwise. |
| Server.FanModeContract | server/server.py:154-167 | 400 without "mode". Otherwise the mode is published as text, and fanMode is false if it is "auto" and true otherwise. |
| Panel.Channels | frontend/smart-home.js:95-99 | Each channel of `(n >> k) & 255` lies in 0..255. NaN gives 0. |
| Panel.ParseHex | frontend/smart-home.js:94 | parseInt(_, 16) reads a non-empty string of hexadecimal digits whole, and gives NaN for the empty string. |
| Panel.HexToRgb | frontend/smart-home.js:92-99 | Each of the three channels is a byte. |
| Panel.HexToRgbOfEmpty | frontend/smart-home.js:92-99 | An empty value, with or without its '#', parses to NaN and gives black. |
| Panel.HexToRgbOfDigits | frontend/smart-home.js:92-99 | With or without a leading '#', hexadecimal digits give the channels of their value. |
| Panel.HexToRgbOfSixDigits | frontend/smart-home.js:93-98 | For six hexadecimal digits the channels are the three digit pairs (with a '#' the same, by `Panel.HexToRgbOfDigits`). |
| Panel.HexToRgbRecombines | frontend/smart-home.js:93-98 | For six hexadecimal digits, r*65536 + g*256 + b is the parsed number. |
| Panel.HexToRgbRed | frontend/smart-home.js:92-99 | "#E5394B" gives (229, 57, 75). |
| Panel.HexToRgbBlack | frontend/smart-home.js:92-99 | "000000" gives (0, 0, 0). |
| Panel.OneHashOnly | frontend/smart-home.js:93 | Only one '#' is stripped: "##..." parses to NaN and gives black. |
| Panel.ColorBodyFields | frontend/smart-home.js:32-38 | The colour request has exactly action "color" and red, green, blue as decimal numerals of the channels. |
| Panel.Dashboard.constructor | frontend/smart-home.js:8-10 | The three flags start false and nothing has been sent. |
| Panel.Dashboard.OnSnapshot | frontend/smart-home.js:62-73 | An existing document overwrites the three flags, then setAC and setLight redraw. A missing one changes nothing. |
| Panel.Dashboard.SetAC | frontend/smart-home.js:102-116 | Computes the mode and fan buttons' view from fanMode, and from fanIsOn in MANUAL. See SetACAuto and SetACManual. |
| Panel.Dashboard.SetFanStateButton | frontend/smart-home.js:118-128 | The fan button is active and reads "Running" iff the fan runs, else inactive and "Off". |
| Panel.Dashboard.SetLight | frontend/smart-home.js:130-143 | Computes the picker's and light button's view from ledIsOn. See SetLightView. |
| Panel.Dashboard.SendToServer | frontend/smart-home.js:76-90 | One POST of the JSON body to the URL is appended to the requests. |
| Panel.Dashboard.OnLedStateClick | frontend/smart-home.js:22-29 | Sends the light toggle request. See LedClickIff. |
| Panel.Dashboard.OnColorChange | frontend/smart-home.js:31-41 | Sends the colour request for the picked value. See ColorBodyFields. |
| Panel.Dashboard.OnFanStateClick | frontend/smart-home.js:43-49 | Sends the fan toggle request. See FanClickIff. |
| Panel.Dashboard.OnFanModeClick | frontend/smart-home.js:51-57 | Sends the mode toggle request. See ModeClickIff. |
| Panel.LedClickIff | frontend/smart-home.js:22-29 | One request to /light/state with exactly "action": "switch" and "state". The state is "off" iff the cache says the light is on, "on" iff not. Nothing else changes. |
| Panel.FanClickIff | frontend/smart-home.js:43-49 | One request to /fan/state whose only key "state" is "off" iff the cached fanIsOn, "on" iff not. |
| Panel.ModeClickIff | frontend/smart-home.js:51-57 | One request to /fan/mode whose only key "mode" is "auto" iff the cached fanMode (MANUAL), "manual" iff not. |
| Panel.RepeatedClicksRepeat | frontend/smart-home.js:22-57 | Clicks do not change the flags, so two clicks on the same button send the same request twice. |
| Panel.SnapshotOverwritesFlags | frontend/smart-home.js:63-72 | An existing document sets each flag to the truthiness of its field; a missing field reads as false. A missing document leaves the page unchanged. No request is sent. |
| Panel.SetACAuto | frontend/smart-home.js:106-109 | With fanMode false, the fan button is hidden with its text and active class untouched. The mode button reads "Auto" and is not active. |
| Panel.SetACManual | frontend/smart-home.js:110-128 | With fanMode true, the fan button is shown, and is active and reads "Running" iff the fan runs, else "Off". The mode button is active and reads "Manual". |
| Panel.SetLightView | frontend/smart-home.js:130-143 | The picker is hidden iff the light is off. The button is active and reads "On" iff it is on, else "Off". |
| Charts.Timestamps | frontend/charts.js:70 | One label per reading, each the reading's timestamp, in order. |
| Charts.Values | frontend/charts.js:71 | One data point per reading, each the reading's value, in order. |
| Charts.Chart.constructor | frontend/charts.js:21-24 | A chart starts with empty labels and data. |
| Charts.Readouts.constructor | frontend/charts.js:85-91 | Stands for the page's "real-humid" and "real-temp" elements, holding the given initial texts. |
| Charts.Readouts.UpdateRealTimeValues | frontend/charts.js:83-93 | Only the readout named by the document id is rewritten, with the readout text and unit. |
| Charts.OnSensorSnapshot | frontend/charts.js:65-81 | The chart's series and the readouts become those of `SnapshotStep`. See the three lemmas below. |
| Charts.SeriesReplaced | frontend/charts.js:69-74 | Labels and data have the length of `readings` (0 without it) and follow it in order. They do not depend on what the chart showed before. |
| Charts.ReadoutOfSensor | frontend/charts.js:76-92 | The document's own readout shows its newest value (or "undefined") plus " %" or " °C". Other ids update no readout. |
| Charts.AbsentDocument | frontend/charts.js:68-79 | A missing document leaves the series and the readouts alone. |
| Protocol.ColorCommandTokens | server/server.py:202 | The server's colour command holds no NUL, and strtok splits it into "color" and the three numerals. |
| Protocol.ColorRequestPublished | frontend/smart-home.js:31-41 | A picked colour reaches the server as three decimal strings. The server publishes them in a colour command and stores them iff the document exists. |
| Protocol.ColorCommandApplied | esp32/src/main.cpp:79-84 | The device reads that command without a missing token and stores exactly the three numbers. |
| Protocol.ColorEndToEnd | frontend/smart-home.js:31-41 | The colour picked in the browser ends up, channel by channel, as the device's stored and displayed colour. |
| Protocol.SwitchCommandApplied | esp32/src/main.cpp:63-77 | The device reads "switch on" and "switch off" without a missing token, and led_on ends up as requested. |
| Protocol.LightToggleEndToEnd | frontend/smart-home.js:22-29 | The light button makes the device's LED and the server's ledIsOn the opposite of the cached flag. |
| Protocol.FanToggleEndToEnd | frontend/smart-home.js:43-49 | The fan button makes the device's fan and the server's fanIsOn the opposite of the cache. The server's echo of its own publish agrees. |
| Protocol.ModeToggleEndToEnd | frontend/smart-home.js:51-57 | The mode button makes the device's mode and the server's fanMode equal, and the opposite of the cache. |
| Protocol.FanStateMappingsDiffer | server/server.py:150 | A state "ON" over HTTP sets fanIsOn true. The device stops the fan, and the server's echo over MQTT sets fanIsOn false. |
| Protocol.DhtReportValues | esp32/src/main.cpp:152 | The server splits the device's report into exactly the humidity and temperature the device printed. |
| Protocol.DhtEndToEnd | server/server.py:88-113 | A device reading becomes the newest stored reading of each sensor, with value hundredths / 100. |
| Protocol.NewestReadings | server/server.py:94-113 | Any readable report leaves its two values last in the two documents. |
| Protocol.ReadoutShowsNewest | frontend/charts.js:76 | The browser's readout shows the newest stored value's text with the sensor's unit. |
| Protocol.ReadoutReadsBack | frontend/charts.js:86 | The text the browser shows is one float() reads back as the stored value. |
| Protocol.GasEndToEnd | esp32/src/main.cpp:172-176 | The alert goes out iff the raw ADC value the device published exceeds 2000. Otherwise the server is unchanged. |
| Protocol.InitEndToEnd | esp32/src/main.cpp:178-182 | The server's actuator document becomes the device's colour bytes and three flags. The browser's snapshot of it caches the device's flags. |
| Protocol.ThermostatReachesServer | esp32/src/main.cpp:155-169 | When the thermostat switches the fan, the server's fanIsOn follows the device's fan_on. |

## Left out

- MQTT, Wi-Fi, TLS, Flask routing, CORS, `fetch`, Firestore `get`/`set`/`onSnapshot` and the Telegram HTTP call are not modelled as I/O. The connection code (`setup`, `wifi_connect`, `mqtt_connect`, `on_connect`, the server's `__main__` block) is left out.
  - A publish or a request is an entry appended to a log.
  - A document is a field of the owning class.
  - A snapshot is a call with the document's value (None when it does not exist).
- GPIO, the DHT22 and the ADC become values: `analogWrite` sets a pin field, and sensor readings are parameters. `millis()` and `datetime.now()` are parameters too.
- Each handler runs as one atomic step. The races are not modelled: Flask threads against the MQTT thread on the actuator document's read-modify-write, and the browser's stale cached flags.
- Device.Esp32.OnMessage: requires that an LED command never makes `strtok` return NULL to `strcmp` or `atoi`, which is undefined behaviour in C. The payload is the message up to its first NUL.
- Device.Esp32.LedCommand: same precondition as Device.Esp32.OnMessage.
- Device.Esp32.OnMessage: the firmware `strcpy`s the payload buffer (esp32/src/main.cpp:60, 89, 103), and the MQTT library does not NUL-terminate it. The copy therefore reads past `length` until it meets a zero byte, and it is undefined behaviour once it runs past `command[length + 1]`. The model assumes the copy stops at the payload's end (`Text.CString` of the payload).
- Server.Backend.OnMessage: a DHT report with fewer than two words or with text float() rejects (server/server.py:89-91), a gas report float() rejects (server/server.py:118), a fan report when the actuator document is missing (server/server.py:67-68 via 123) and an INIT report with fewer than six words (server/server.py:126-135) all raise out of `on_message`. The paho 2.x client (server/server.py:29) raises such an exception again in the network thread that `loop_start` started (server/server.py:214). That ends the thread, and later messages are no longer received. The model treats each case as a step that changes nothing, after which later messages are still processed.
- Device.Atoi: `led_red`, `led_green` and `led_blue` are 32-bit C `int`s (esp32/src/main.cpp:30-32). For a numeral outside the `int` range, `atoi` is undefined behaviour in C; the ESP32's C library saturates it through `strtol`. The model reads the unbounded value instead. The server forwards any string a client sends (server/server.py:202), so "color 4294967296 0 0" reaches the device. There `led_red` becomes 2147483647 and `init_home` prints 255, where the model stores 4294967296 and `Device.Byte` prints 0. For numerals below 2^31, which include every channel the dashboard sends, the two agree.
- Device.Esp32.ReadDhtSensor: the readings are integers in hundredths. A failed DHT read returns NaN, which the firmware prints as "nan" and the thermostat's comparisons ignore; that case is not modelled. `"%.2f"` of other floats is not modelled.
- Numbers.PyFloat: accepts signs, digits and one decimal point, and gives None for everything else. Python's float() also accepts exponents, "inf", "nan", underscores and Unicode decimal digits of category Nd (such as "٣٠٠١"); the model does not. A gas or DHT report written in such digits therefore alerts or is stored in the source, while the model changes nothing (`Server.GasAlertIff`, `Server.DhtReport`).
  - A failed DHT22 read gives NaN, and the firmware prints it as "nan nan" (esp32/src/main.cpp:149-152). float("nan") succeeds, so the server stores two NaN readings (server/server.py:90-113). Here `Server.DhtValues` gives None for that report, and `Server.DhtReport` then has it change nothing.
  - float() rounds to the nearest binary double, while `PyFloat` keeps the exact decimal. For the short "%.2f" and itoa texts the firmware sends, the double's shortest decimal text is that exact decimal, and its comparison with 2000 comes out the same. For payloads with more than about 15 significant digits, the comparison in `Numbers.GreaterThanValue` is exact where Python's is not.
- Server.DhtReport: a "nan nan" report changes nothing in the model but stores two NaN readings in the source (see Numbers.PyFloat).
- Charts.Readouts.UpdateRealTimeValues: JavaScript's number text is modelled for exact decimal fractions only (the values `float()` reads from `"%.2f"` text), not for binary floating point in general.
- Numbers.JsNumberText: JavaScript writes numbers below 1e-6 or from 1e21 up in exponent notation; the model writes every value as plain digits.
- Panel.Channels: parseInt's loss of precision beyond 2^53 is not modelled. The shift and mask are exact on the 32-bit two's complement of the parsed integer.
- Charts.Timestamps: `new Date(timestamp)` is not parsed; a label is the timestamp text it is built from. `gen_chart` and `chart.update()` are not modelled.
- JSON values are strings, booleans, integers and null. JSON floats, arrays and request bodies that are JSON but not objects are not modelled.
- A Firestore failure inside the server's DHT handler, caught by its `except`, is not modelled.
