/** The browser control panel: it caches three flags from the actuator
    document, shows them on the buttons, and turns clicks and colour choices
    into POST requests for the server.

    The module-level flags and the four page elements are the fields of class
    Dashboard, together with the requests sent so far. Each handler is
    specified by a function on the value `Page` of those fields. */
module Panel {
  import opened Text
  import opened Numbers
  import opened Json

  // ---------------------------------------------------------------------
  // hexToRgb
  // ---------------------------------------------------------------------

  predicate IsHexDigit(c: char)
  {
    '0' <= c <= '9' || 'a' <= c <= 'f' || 'A' <= c <= 'F'
  }

  function HexDigitValue(c: char): (d: nat)
    requires IsHexDigit(c)
    ensures d < 16
  {
    if '0' <= c <= '9' then c as int - '0' as int
    else if 'a' <= c <= 'f' then c as int - 'a' as int + 10
    else c as int - 'A' as int + 10
  }

  predicate AllHex(s: string) { forall i :: 0 <= i < |s| ==> IsHexDigit(s[i]) }

  /** The number a string of hexadecimal digits denotes (most significant first). */
  function HexValue(s: string): nat
    requires AllHex(s)
  {
    if s == [] then 0 else 16 * HexValue(s[..|s| - 1]) + HexDigitValue(s[|s| - 1])
  }

  /** The longest prefix of `s` made of hexadecimal digits. */
  function LeadingHexDigits(s: string): (u: string)
    ensures |u| <= |s| && u == s[..|u|] && AllHex(u)
    ensures |u| < |s| ==> !IsHexDigit(s[|u|])
  {
    if s != [] && IsHexDigit(s[0]) then [s[0]] + LeadingHexDigits(s[1..]) else []
  }

  /** Hexadecimal digits have no leading blank, sign or "0x", and are their own run. */
  lemma HexDigitsArePlain(s: string)
    ensures s != [] && AllHex(s) ==>
              && TrimStart(s, JavaScriptWhitespace) == s
              && s[0] != '-' && s[0] != '+'
              && !(|s| >= 2 && s[0] == '0' && (s[1] == 'x' || s[1] == 'X'))
              && LeadingHexDigits(s) == s
  {
    if s != [] && AllHex(s) {
      assert IsHexDigit(s[0]);
      assert s[0] !in JavaScriptWhitespace;
      assert LeadingHexDigits(s) == s;
    }
  }

  /** JavaScript's parseInt(s, 16): leading white space, an optional sign, an
      optional "0x" or "0X", then the longest run of hexadecimal digits.
      None stands for NaN, the result when that run is empty. A string of
      hexadecimal digits is read whole; the empty string is NaN. */
  function ParseHex(s: string): (r: Option<int>)
    ensures s == [] ==> r.None?
    ensures s != [] && AllHex(s) ==> r == Some(HexValue(s))
  {
    HexDigitsArePlain(s);
    var t := TrimStart(s, JavaScriptWhitespace);
    var negative := t != [] && t[0] == '-';
    var u := if t != [] && (t[0] == '-' || t[0] == '+') then t[1..] else t;
    var v := if |u| >= 2 && u[0] == '0' && (u[1] == 'x' || u[1] == 'X') then u[2..] else u;
    var digits := LeadingHexDigits(v);
    if digits == [] then None else Some(Signed(negative, HexValue(digits)))
  }

  datatype Color = Color(r: int, g: int, b: int)

  /** (n >> 16) & 255, (n >> 8) & 255 and n & 255. The shifts work on the
      32-bit two's complement of n, and bits 16 to 23, 8 to 15 and 0 to 7 of
      it are floor(n / 2^k) mod 256 for every integer n; NaN converts to 0. */
  function Channels(n: Option<int>): (c: Color)
    ensures 0 <= c.r < 256 && 0 <= c.g < 256 && 0 <= c.b < 256
  {
    var x := if n.None? then 0 else n.value;
    Color((x / 65536) % 256, (x / 256) % 256, x % 256)
  }

  /** hexToRgb: drop one leading '#', parse the rest as hexadecimal, split
      into bytes. Each channel is a byte. */
  function HexToRgb(hex: string): (c: Color)
    ensures 0 <= c.r < 256 && 0 <= c.g < 256 && 0 <= c.b < 256
  {
    var digits := if hex != [] && hex[0] == '#' then hex[1..] else hex;
    Channels(ParseHex(digits))
  }

  // ---------------------------------------------------------------------
  // Requests and the page
  // ---------------------------------------------------------------------

  const BaseUrl := "http://172.22.121.250:5000/api"
  const LightStateUrl := BaseUrl + "/light/state"
  const LightColorUrl := BaseUrl + "/light/color"
  const FanStateUrl := BaseUrl + "/fan/state"
  const FanModeUrl := BaseUrl + "/fan/mode"

  /** A POST of a JSON object. */
  datatype Post = Post(url: string, body: JsonObject)

  /** The light button's request: turn off what the cache says is on. */
  function LightToggle(ledIsOn: bool): JsonObject
  {
    map["action" := JString("switch"), "state" := JString(if ledIsOn then "off" else "on")]
  }

  /** The colour picker's request: the channels as decimal strings. */
  function ColorChoice(hex: string): JsonObject
  {
    ColorBody(HexToRgb(hex))
  }

  function ColorBody(c: Color): JsonObject
    requires c.r >= 0 && c.g >= 0 && c.b >= 0
  {
    map["action" := JString("color"), "red" := JString(NatToString(c.r)),
        "green" := JString(NatToString(c.g)), "blue" := JString(NatToString(c.b))]
  }

  /** The fan button's request. */
  function FanToggle(fanIsOn: bool): JsonObject
  {
    map["state" := JString(if fanIsOn then "off" else "on")]
  }

  /** The mode button's request: MANUAL (true) asks for "auto", AUTO asks for "manual". */
  function ModeToggle(fanMode: bool): JsonObject
  {
    map["mode" := JString(if fanMode then "auto" else "manual")]
  }

  /** A page element: its class list and its text. */
  datatype Element = Element(classes: set<string>, text: string)

  const Hidden := "hidden"
  const Active := "active-button"

  function Add(e: Element, c: string): Element { e.(classes := e.classes + {c}) }
  function Remove(e: Element, c: string): Element { e.(classes := e.classes - {c}) }

  /** Everything the script changes: the three cached flags (as the
      truthiness of the values they hold), the four elements and the requests. */
  datatype Page = Page(
    ledIsOn: bool, fanIsOn: bool, fanMode: bool,
    fanModeBtn: Element,  // #fan-mode
    fanStateBtn: Element, // #fan-state
    ledStateBtn: Element, // #led-state
    colorPicker: Element, // #color-picker
    sent: seq<Post>)

  function SetFanStateButtonStep(p: Page): Page
  {
    if p.fanIsOn then p.(fanStateBtn := Add(p.fanStateBtn, Active).(text := "Running"))
    else p.(fanStateBtn := Remove(p.fanStateBtn, Active).(text := "Off"))
  }

  function SetACStep(p: Page): Page
  {
    if !p.fanMode then
      p.(fanStateBtn := Add(p.fanStateBtn, Hidden), fanModeBtn := Remove(p.fanModeBtn, Active).(text := "Auto"))
    else
      SetFanStateButtonStep(p.(fanStateBtn := Remove(p.fanStateBtn, Hidden),
                               fanModeBtn := Add(p.fanModeBtn, Active).(text := "Manual")))
  }

  function SetLightStep(p: Page): Page
  {
    if !p.ledIsOn then
      p.(colorPicker := Add(p.colorPicker, Hidden), ledStateBtn := Remove(p.ledStateBtn, Active).(text := "Off"))
    else
      p.(colorPicker := Remove(p.colorPicker, Hidden), ledStateBtn := Add(p.ledStateBtn, Active).(text := "On"))
  }

  /** The snapshot callback: an existing document overwrites the three flags
      and redraws; a missing one changes nothing. */
  function SnapshotStep(p: Page, doc: Option<JsonObject>): Page
  {
    match doc
    case None => p
    case Some(data) =>
      SetLightStep(SetACStep(p.(ledIsOn := Truthy(Get(data, "ledIsOn")),
                                fanIsOn := Truthy(Get(data, "fanIsOn")),
                                fanMode := Truthy(Get(data, "fanMode")))))
  }

  function Send(p: Page, url: string, body: JsonObject): Page
  {
    p.(sent := p.sent + [Post(url, body)])
  }

  function LedClickStep(p: Page): Page { Send(p, LightStateUrl, LightToggle(p.ledIsOn)) }
  function ColorChangeStep(p: Page, hex: string): Page { Send(p, LightColorUrl, ColorChoice(hex)) }
  function FanClickStep(p: Page): Page { Send(p, FanStateUrl, FanToggle(p.fanIsOn)) }
  function ModeClickStep(p: Page): Page { Send(p, FanModeUrl, ModeToggle(p.fanMode)) }

  // ---------------------------------------------------------------------
  // The script's state
  // ---------------------------------------------------------------------

  class Dashboard {
    var ledIsOn: bool
    var fanIsOn: bool
    var fanMode: bool
    var fanModeBtn: Element
    var fanStateBtn: Element
    var ledStateBtn: Element
    var colorPicker: Element
    var sent: seq<Post>

    function State(): Page
      reads this
    {
      Page(ledIsOn, fanIsOn, fanMode, fanModeBtn, fanStateBtn, ledStateBtn, colorPicker, sent)
    }

    /** The flags start false; the elements start as the HTML declares them. */
    constructor (fanModeBtn: Element, fanStateBtn: Element, ledStateBtn: Element, colorPicker: Element)
      ensures State() == Page(false, false, false, fanModeBtn, fanStateBtn, ledStateBtn, colorPicker, [])
    {
      ledIsOn, fanIsOn, fanMode := false, false, false;
      this.fanModeBtn, this.fanStateBtn := fanModeBtn, fanStateBtn;
      this.ledStateBtn, this.colorPicker := ledStateBtn, colorPicker;
      sent := [];
    }

    method OnSnapshot(doc: Option<JsonObject>)
      modifies this
      ensures State() == SnapshotStep(old(State()), doc)
    {
      if doc.Some? {
        var data := doc.value;
        ledIsOn := Truthy(Get(data, "ledIsOn"));
        fanIsOn := Truthy(Get(data, "fanIsOn"));
        fanMode := Truthy(Get(data, "fanMode"));
        SetAC();
        SetLight();
      }
    }

    method SetAC()
      modifies this`fanStateBtn, this`fanModeBtn
      ensures State() == SetACStep(old(State()))
    {
      if !fanMode {
        fanStateBtn := Add(fanStateBtn, Hidden);
        fanModeBtn := fanModeBtn.(text := "Auto");
        fanModeBtn := Remove(fanModeBtn, Active);
      } else {
        fanStateBtn := Remove(fanStateBtn, Hidden);
        fanModeBtn := Add(fanModeBtn, Active);
        fanModeBtn := fanModeBtn.(text := "Manual");
        SetFanStateButton();
      }
    }

    method SetFanStateButton()
      modifies this`fanStateBtn
      ensures State() == SetFanStateButtonStep(old(State()))
    {
      if fanIsOn {
        fanStateBtn := Add(fanStateBtn, Active);
        fanStateBtn := fanStateBtn.(text := "Running");
      } else {
        fanStateBtn := Remove(fanStateBtn, Active);
        fanStateBtn := fanStateBtn.(text := "Off");
      }
    }

    method SetLight()
      modifies this`colorPicker, this`ledStateBtn
      ensures State() == SetLightStep(old(State()))
    {
      if !ledIsOn {
        colorPicker := Add(colorPicker, Hidden);
        ledStateBtn := Remove(ledStateBtn, Active);
        ledStateBtn := ledStateBtn.(text := "Off");
      } else {
        colorPicker := Remove(colorPicker, Hidden);
        ledStateBtn := Add(ledStateBtn, Active);
        ledStateBtn := ledStateBtn.(text := "On");
      }
    }

    method SendToServer(url: string, data: JsonObject)
      modifies this`sent
      ensures sent == old(sent) + [Post(url, data)]
    {
      sent := sent + [Post(url, data)];
    }

    method OnLedStateClick()
      modifies this`sent
      ensures State() == LedClickStep(old(State()))
    {
      var actionData := map["action" := JString("switch"), "state" := JString(if ledIsOn then "off" else "on")];
      SendToServer(LightStateUrl, actionData);
    }

    method OnColorChange(value: string)
      modifies this`sent
      ensures State() == ColorChangeStep(old(State()), value)
    {
      var rgbColor := HexToRgb(value);
      var colorData := map["action" := JString("color"), "red" := JString(NatToString(rgbColor.r)),
                           "green" := JString(NatToString(rgbColor.g)), "blue" := JString(NatToString(rgbColor.b))];
      SendToServer(LightColorUrl, colorData);
    }

    method OnFanStateClick()
      modifies this`sent
      ensures State() == FanClickStep(old(State()))
    {
      var fanSwitchData := map["state" := JString(if fanIsOn then "off" else "on")];
      SendToServer(FanStateUrl, fanSwitchData);
    }

    method OnFanModeClick()
      modifies this`sent
      ensures State() == ModeClickStep(old(State()))
    {
      var fanModeData := map["mode" := JString(if fanMode then "auto" else "manual")];
      SendToServer(FanModeUrl, fanModeData);
    }
  }

  // ---------------------------------------------------------------------
  // Properties
  // ---------------------------------------------------------------------

  function Pow16(k: nat): (p: nat)
    ensures p >= 1
  {
    if k == 0 then 1 else 16 * Pow16(k - 1)
  }

  lemma {:induction false} HexValueAppend(a: string, b: string)
    requires AllHex(a) && AllHex(b)
    ensures AllHex(a + b)
    ensures HexValue(a + b) == HexValue(a) * Pow16(|b|) + HexValue(b)
  {
    if b != [] {
      var b' := b[..|b| - 1];
      assert (a + b)[..|a + b| - 1] == a + b';
      assert (a + b)[|a + b| - 1] == b[|b| - 1];
      HexValueAppend(a, b');
      ShiftDigit16(HexValue(a), Pow16(|b'|), HexValue(b'), HexDigitValue(b[|b| - 1]));
    } else {
      assert a + b == a;
    }
  }

  lemma ShiftDigit16(x: int, p: int, y: int, d: int)
    ensures 16 * (x * p + y) + d == x * (16 * p) + (16 * y + d)
  {
  }

  lemma {:induction false} HexValueBound(s: string)
    requires AllHex(s)
    ensures HexValue(s) < Pow16(|s|)
  {
    if s != [] {
      HexValueBound(s[..|s| - 1]);
    }
  }

  /** The value of six hexadecimal digits in three pairs. */
  lemma SixDigitValue(s: string)
    requires |s| == 6 && AllHex(s)
    ensures HexValue(s) == HexValue(s[..2]) * 65536 + HexValue(s[2..4]) * 256 + HexValue(s[4..])
  {
    var r, g, b, rg := s[..2], s[2..4], s[4..], s[..4];
    assert rg == r + g && s == rg + b;
    assert Pow16(2) == 256;
    HexValueAppend(r, g);
    HexValueAppend(rg, b);
    RegroupBytes(HexValue(r), HexValue(g), HexValue(b));
  }

  lemma RegroupBytes(x: int, y: int, z: int)
    ensures (x * 256 + y) * 256 + z == x * 65536 + y * 256 + z
  {
  }

  lemma PairBound(s: string)
    requires |s| == 2 && AllHex(s)
    ensures HexValue(s) < 256
  {
    HexValueBound(s);
    assert Pow16(2) == 256;
  }

  /** hexToRgb of hexadecimal digits, with or without the '#'. */
  lemma HexToRgbOfDigits(s: string)
    requires s != [] && AllHex(s)
    ensures HexToRgb(s) == Channels(Some(HexValue(s)))
    ensures HexToRgb("#" + s) == Channels(Some(HexValue(s)))
  {
    assert IsHexDigit(s[0]);
    assert ("#" + s)[0] == '#' && ("#" + s)[1..] == s;
  }

  /** An empty value, with or without the '#', is NaN to parseInt and black. */
  lemma HexToRgbOfEmpty(hex: string)
    requires hex == [] || hex == ['#']
    ensures HexToRgb(hex) == Color(0, 0, 0)
  {
    var digits := if hex != [] && hex[0] == '#' then hex[1..] else hex;
    assert digits == [];
  }

  /** The colour whose channels are the values of the three hexadecimal pairs "rrggbb". */
  function PairChannels(s: string): Color
    requires |s| == 6 && AllHex(s)
  {
    Color(HexValue(s[..2]), HexValue(s[2..4]), HexValue(s[4..]))
  }

  /** For "rrggbb" the channels are the three hexadecimal pairs. */
  lemma HexToRgbOfSixDigits(s: string)
    requires |s| == 6 && AllHex(s)
    ensures HexToRgb(s) == PairChannels(s)
  {
    var r, g, b := HexValue(s[..2]), HexValue(s[2..4]), HexValue(s[4..]);
    PairBound(s[..2]);
    PairBound(s[2..4]);
    PairBound(s[4..]);
    SixDigitValue(s);
    assert IsHexDigit(s[0]);
    assert HexToRgb(s) == Channels(Some(HexValue(s)));
    ChannelsOfBytes(r, g, b, HexValue(s));
  }

  /** ... so r * 65536 + g * 256 + b gives back the parsed number. */
  lemma HexToRgbRecombines(s: string)
    requires |s| == 6 && AllHex(s)
    ensures var c := HexToRgb(s); c.r * 65536 + c.g * 256 + c.b == HexValue(s)
  {
    HexToRgbOfSixDigits(s);
    SixDigitValue(s);
  }

  lemma ChannelsOfBytes(r: nat, g: nat, b: nat, n: nat)
    requires r < 256 && g < 256 && b < 256
    requires n == r * 65536 + g * 256 + b
    ensures Channels(Some(n)) == Color(r, g, b)
  {
    assert n / 65536 == r;
    assert n / 256 == r * 256 + g;
    assert (r * 256 + g) % 256 == g;
    assert n % 256 == b;
  }

  /** A colour the picker can produce. */
  lemma HexToRgbRed(hex: string)
    requires hex == "#E5394B"
    ensures HexToRgb(hex) == Color(229, 57, 75)
  {
    RedDigits(hex);
    RedPairs();
    HexToRgbOfDigits(hex[1..]);
    HexToRgbOfSixDigits(hex[1..]);
  }

  lemma RedDigits(hex: string)
    requires hex == "#E5394B"
    ensures hex == "#" + hex[1..] && |hex[1..]| == 6 && AllHex(hex[1..])
    ensures hex[1..][..2] == "E5" && hex[1..][2..4] == "39" && hex[1..][4..] == "4B"
  {
  }

  lemma RedPairs()
    ensures HexValue("E5") == 229 && HexValue("39") == 57 && HexValue("4B") == 75
  {
    assert HexValue("E5") == 16 * HexValue("E") + 5;
    assert HexValue("39") == 16 * HexValue("3") + 9;
    assert HexValue("4B") == 16 * HexValue("4") + 11;
  }

  /** Black, written without the '#'. */
  lemma HexToRgbBlack(hex: string)
    requires hex == "000000"
    ensures HexToRgb(hex) == Color(0, 0, 0)
  {
    BlackDigits(hex);
    HexToRgbOfSixDigits(hex);
  }

  lemma BlackDigits(hex: string)
    requires hex == "000000"
    ensures AllHex(hex) && hex[..2] == hex[2..4] == hex[4..] == "00"
    ensures HexValue("00") == 0
  {
    assert HexValue("00") == 16 * HexValue("0") + 0;
  }

  /** Only one '#' is dropped: a second one makes parseInt return NaN, which
      the shifts turn into black. */
  lemma OneHashOnly(s: string)
    ensures HexToRgb("##" + s) == Color(0, 0, 0)
  {
    var t := ("##" + s)[1..];
    assert t[0] == '#';
    assert t[0] !in JavaScriptWhitespace;
    assert TrimStart(t, JavaScriptWhitespace) == t;
    assert LeadingHexDigits(t) == [];
  }

  /** The light button asks for "off" exactly when the cache says the light
      is on; nothing but the request log changes. */
  lemma LedClickIff(p: Page)
    ensures var q := LedClickStep(p);
            && q == p.(sent := q.sent)
            && |q.sent| == |p.sent| + 1 && q.sent[..|p.sent|] == p.sent
            && q.sent[|p.sent|].url == LightStateUrl
            && q.sent[|p.sent|].body.Keys == {"action", "state"}
            && q.sent[|p.sent|].body["action"] == JString("switch")
            && (q.sent[|p.sent|].body["state"] == JString("off") <==> p.ledIsOn)
            && (q.sent[|p.sent|].body["state"] == JString("on") <==> !p.ledIsOn)
  {
    assert (p.sent + [Post(LightStateUrl, LightToggle(p.ledIsOn))])[..|p.sent|] == p.sent;
  }

  /** The fan button asks for "off" exactly when the cache says the fan runs. */
  lemma FanClickIff(p: Page)
    ensures var q := FanClickStep(p);
            && q == p.(sent := q.sent)
            && |q.sent| == |p.sent| + 1 && q.sent[..|p.sent|] == p.sent
            && q.sent[|p.sent|].url == FanStateUrl
            && q.sent[|p.sent|].body.Keys == {"state"}
            && (q.sent[|p.sent|].body["state"] == JString("off") <==> p.fanIsOn)
            && (q.sent[|p.sent|].body["state"] == JString("on") <==> !p.fanIsOn)
  {
    assert (p.sent + [Post(FanStateUrl, FanToggle(p.fanIsOn))])[..|p.sent|] == p.sent;
  }

  /** The mode button asks for "auto" exactly when the cache says MANUAL. */
  lemma ModeClickIff(p: Page)
    ensures var q := ModeClickStep(p);
            && q == p.(sent := q.sent)
            && |q.sent| == |p.sent| + 1 && q.sent[..|p.sent|] == p.sent
            && q.sent[|p.sent|].url == FanModeUrl
            && q.sent[|p.sent|].body.Keys == {"mode"}
            && (q.sent[|p.sent|].body["mode"] == JString("auto") <==> p.fanMode)
            && (q.sent[|p.sent|].body["mode"] == JString("manual") <==> !p.fanMode)
  {
    assert (p.sent + [Post(FanModeUrl, ModeToggle(p.fanMode))])[..|p.sent|] == p.sent;
  }

  /** The colour request carries the channels of the chosen colour as
      decimal strings, with action "color". */
  lemma ColorBodyFields(c: Color)
    requires c.r >= 0 && c.g >= 0 && c.b >= 0
    ensures var body := ColorBody(c);
            && body.Keys == {"action", "red", "green", "blue"}
            && body["action"] == JString("color")
            && body["red"].JString? && IsNumeral(body["red"].s) && NumeralValue(body["red"].s) == c.r
            && body["green"].JString? && IsNumeral(body["green"].s) && NumeralValue(body["green"].s) == c.g
            && body["blue"].JString? && IsNumeral(body["blue"].s) && NumeralValue(body["blue"].s) == c.b
  {
    NatToStringRoundTrip(c.r);
    NatToStringRoundTrip(c.g);
    NatToStringRoundTrip(c.b);
  }

  /** Clicks never change the flags, so two clicks on the same button with
      no snapshot between them send the same request twice. */
  lemma RepeatedClicksRepeat(p: Page)
    ensures var q := LedClickStep(LedClickStep(p)); q.sent[|q.sent| - 1] == q.sent[|q.sent| - 2]
    ensures var q := FanClickStep(FanClickStep(p)); q.sent[|q.sent| - 1] == q.sent[|q.sent| - 2]
    ensures var q := ModeClickStep(ModeClickStep(p)); q.sent[|q.sent| - 1] == q.sent[|q.sent| - 2]
  {
  }

  /** An existing document overwrites all three flags with the truthiness of
      its fields (a missing field reads as false); a missing document leaves
      the flags, the elements and the requests as they were. */
  lemma SnapshotOverwritesFlags(p: Page, doc: Option<JsonObject>)
    ensures var q := SnapshotStep(p, doc);
            && q.sent == p.sent
            && if doc.None? then q == p
               else
                 && q.ledIsOn == Truthy(Get(doc.value, "ledIsOn"))
                 && q.fanIsOn == Truthy(Get(doc.value, "fanIsOn"))
                 && q.fanMode == Truthy(Get(doc.value, "fanMode"))
  {
  }

  /** setAC in AUTO (fanMode false): the fan button is hidden, the mode
      button reads "Auto" and is not active, and the fan button's text and
      active class stay as they were. */
  lemma SetACAuto(p: Page)
    requires !p.fanMode
    ensures var q := SetACStep(p);
            && Hidden in q.fanStateBtn.classes
            && q.fanStateBtn.text == p.fanStateBtn.text
            && (Active in q.fanStateBtn.classes <==> Active in p.fanStateBtn.classes)
            && q.fanModeBtn.text == "Auto" && Active !in q.fanModeBtn.classes
            && q == p.(fanStateBtn := q.fanStateBtn, fanModeBtn := q.fanModeBtn)
  {
  }

  /** setAC in MANUAL (fanMode true): the fan button is shown, active and
      "Running" iff the fan runs, else inactive and "Off"; the mode button
      is active and reads "Manual". */
  lemma SetACManual(p: Page)
    requires p.fanMode
    ensures var q := SetACStep(p);
            && Hidden !in q.fanStateBtn.classes
            && (Active in q.fanStateBtn.classes <==> p.fanIsOn)
            && q.fanStateBtn.text == (if p.fanIsOn then "Running" else "Off")
            && q.fanModeBtn.text == "Manual" && Active in q.fanModeBtn.classes
            && q == p.(fanStateBtn := q.fanStateBtn, fanModeBtn := q.fanModeBtn)
  {
  }

  /** setLight: the picker is shown and the button active and "On" exactly
      when the light is on; otherwise the picker is hidden and the button
      inactive and "Off". */
  lemma SetLightView(p: Page)
    ensures var q := SetLightStep(p);
            && (Hidden in q.colorPicker.classes <==> !p.ledIsOn)
            && (Active in q.ledStateBtn.classes <==> p.ledIsOn)
            && q.ledStateBtn.text == (if p.ledIsOn then "On" else "Off")
            && q == p.(colorPicker := q.colorPicker, ledStateBtn := q.ledStateBtn)
  {
  }
}
