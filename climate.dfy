/**
 * The heater entity: its state is read from status markers on the device's detail
 * page, and each user request becomes one button postback through the hub.
 */
module Climate {
  import opened Wrappers
  import opened Text
  import opened Web
  import opened Hub
  import opened Const

  /** Home Assistant's HVAC modes; this heater supports Heat and Off. */
  datatype HvacMode = Off | Heat | Cool | HeatCool | Auto | Dry | FanOnly

  const PRESET_AWAY := "away"
  const PRESET_HOME := "home"
  /** The id of the setpoint input on the heater page. */
  const SETPOINT_INPUT := "txtboxSetTemp"
  /** The setpoint read when the input has no value attribute. */
  const DEFAULT_SETPOINT := 20.0

  /** The entity attributes `update` and the `set_*` requests change. */
  datatype HeaterState = HeaterState(hvac: HvacMode, preset: string, target: real, current: Option<real>)

  function HeaterUrl(host: string, deviceId: string): string
  {
    host + "/SmartWeb/My_Home/Detail_Control_Heater.aspx?device_no=" + deviceId
  }

  /** The setpoint a page shows; None when the input is absent or its value is not a number. */
  function ReadSetpoint(doc: Document): Option<real>
  {
    if SETPOINT_INPUT !in doc.byId then None
    else
      match doc.byId[SETPOINT_INPUT].value
      case None => Some(DEFAULT_SETPOINT)
      case Some(v) => ParseNumber(v)
  }

  /** The state after `update` has read page `doc`. */
  function Observe(s: HeaterState, doc: Document): HeaterState
  {
    var hvac := if Contains(doc.text, "icon_b_boiler_away") || Contains(doc.text, "icon_b_boiler_on") then Heat else Off;
    var preset := if Contains(doc.text, "icon_b_boiler_away") then PRESET_AWAY else PRESET_HOME;
    match ReadSetpoint(doc)
    case None => s.(hvac := hvac, preset := preset)
    case Some(t) => HeaterState(hvac, preset, t, Some(t))
  }

  /** The button `set_hvac_mode` clicks, if any. */
  function HvacButton(mode: HvacMode): Option<string>
  {
    match mode
    case Heat => Some("btnOn")
    case Off => Some("btnOff")
    case _ => None
  }

  /** The button `set_preset_mode` clicks in state `s`, if any. */
  function PresetButton(s: HeaterState, preset: string): Option<string>
  {
    if preset == PRESET_AWAY then Some("btnAway")
    else if preset == PRESET_HOME && (s.hvac == Off || s.preset == PRESET_AWAY) then Some("btnOn")
    else None
  }

  /**
   * The postback for a click on `btn`, carrying the page's tokens and the target
   * temperature truncated to an integer; None when the page has no usable tokens.
   */
  function CommandForm(doc: Document, btn: string, target: real): Option<Form>
  {
    match ReadTokens(doc)
    case None => None
    case Some(t) => Some(ButtonPostback(t, btn)[SETPOINT_INPUT := IntToDecimal(Trunc(target))])
  }

  /** `update` over a response script. */
  function UpdateRun(c: Credentials, url: string, s: HeaterState, script: seq<Exchange>): Run<HeaterState>
  {
    var page := GetSoupRun(c, url, script);
    Run(if page.value.Some? then Observe(s, page.value.value) else s, page.sent, page.rest)
  }

  /** Posting a click and, when the hub reports success, re-reading the state. */
  function SubmitRun(c: Credentials, url: string, s: HeaterState, form: Form, script: seq<Exchange>): Run<HeaterState>
  {
    var post := SendCommandRun(c, url, form, script);
    if !post.value then Run(s, post.sent, post.rest)
    else
      var refresh := UpdateRun(c, url, s, post.rest);
      Run(refresh.value, post.sent + refresh.sent, refresh.rest)
  }

  /**
   * `_send_command(btn)` over a response script: fetch the page, post the click built
   * from it, and re-read the state when the post succeeded.
   */
  function CommandRun(c: Credentials, url: string, s: HeaterState, btn: string, script: seq<Exchange>): Run<HeaterState>
  {
    var page := GetSoupRun(c, url, script);
    if page.value.None? then Run(s, page.sent, page.rest)
    else
      match CommandForm(page.value.value, btn, s.target)
      case None => Run(s, page.sent, page.rest)
      case Some(form) =>
        var submit := SubmitRun(c, url, s, form, page.rest);
        Run(submit.value, page.sent + submit.sent, submit.rest)
  }

  class SmartWebHeater {
    const hub: SmartWebHub
    const name: string
    const deviceId: string
    const url: string
    const uniqueId: string
    var hvacMode: HvacMode
    var presetMode: string
    var targetTemperature: real
    var currentTemperature: Option<real>

    function State(): HeaterState
      reads this
    {
      HeaterState(hvacMode, presetMode, targetTemperature, currentTemperature)
    }

    constructor (hub: SmartWebHub, name: string, deviceId: string, entryId: string)
      ensures this.hub == hub && this.name == name && this.deviceId == deviceId
      ensures url == HeaterUrl(hub.host, deviceId)
      ensures uniqueId == DOMAIN + "_" + entryId + "_heater_" + deviceId
      ensures State() == HeaterState(Off, PRESET_HOME, 20.0, None)
    {
      this.hub := hub;
      this.name := name;
      this.deviceId := deviceId;
      url := HeaterUrl(hub.host, deviceId);
      uniqueId := DOMAIN + "_" + entryId + "_heater_" + deviceId;
      hvacMode := Off;
      presetMode := PRESET_HOME;
      targetTemperature := 20.0;
      currentTemperature := None;
    }

    method Update()
      modifies this, hub
      ensures var r := UpdateRun(hub.Cred(), url, old(State()), old(hub.responses));
        State() == r.value && hub.sent == old(hub.sent) + r.sent && hub.responses == r.rest
    {
      var doc := hub.GetSoup(url);
      if doc.None? {
        return;
      }
      var text := doc.value.text;
      if Contains(text, "icon_b_boiler_away") {
        hvacMode := Heat;
        presetMode := PRESET_AWAY;
      } else if Contains(text, "icon_b_boiler_on") {
        hvacMode := Heat;
        presetMode := PRESET_HOME;
      } else {
        hvacMode := Off;
        presetMode := PRESET_HOME;
      }
      if SETPOINT_INPUT in doc.value.byId {
        var raw := doc.value.byId[SETPOINT_INPUT].value;
        var parsed := if raw.None? then Some(DEFAULT_SETPOINT) else ParseNumber(raw.value);
        if parsed.Some? {
          targetTemperature := parsed.value;
          currentTemperature := Some(targetTemperature);
        }
      }
    }

    method SetHvacMode(mode: HvacMode)
      modifies this, hub
      ensures HvacButton(mode).None? ==>
        State() == old(State()) && hub.sent == old(hub.sent) && hub.responses == old(hub.responses)
      ensures HvacButton(mode).Some? ==>
        var r := CommandRun(hub.Cred(), url, old(State()), HvacButton(mode).value, old(hub.responses));
        && hub.sent == old(hub.sent) + r.sent && hub.responses == r.rest
        && State() == if mode == Heat then r.value.(preset := PRESET_HOME) else r.value
    {
      if mode == Heat {
        SendCommand("btnOn");
        presetMode := PRESET_HOME;
      } else if mode == Off {
        SendCommand("btnOff");
      }
    }

    method SetPresetMode(preset: string)
      modifies this, hub
      ensures PresetButton(old(State()), preset).None? ==>
        State() == old(State()) && hub.sent == old(hub.sent) && hub.responses == old(hub.responses)
      ensures PresetButton(old(State()), preset).Some? ==>
        var r := CommandRun(hub.Cred(), url, old(State()), PresetButton(old(State()), preset).value, old(hub.responses));
        State() == r.value && hub.sent == old(hub.sent) + r.sent && hub.responses == r.rest
    {
      if preset == PRESET_AWAY {
        SendCommand("btnAway");
      } else if preset == PRESET_HOME {
        if hvacMode == Off {
          SendCommand("btnOn");
        } else if presetMode == PRESET_AWAY {
          SendCommand("btnOn");
        }
      }
    }

    /** `set_temperature`; `temperature` is None when the request carries no temperature. */
    method SetTemperature(temperature: Option<real>)
      modifies this, hub
      ensures temperature.None? ==>
        State() == old(State()) && hub.sent == old(hub.sent) && hub.responses == old(hub.responses)
      ensures temperature.Some? ==>
        var r := CommandRun(hub.Cred(), url, old(State()).(target := temperature.value), "btnTmpSet", old(hub.responses));
        State() == r.value && hub.sent == old(hub.sent) + r.sent && hub.responses == r.rest
    {
      if temperature.None? {
        return;
      }
      targetTemperature := temperature.value;
      SendCommand("btnTmpSet");
    }

    /** `_send_command`: one button click, followed by a refresh when it was accepted. */
    method SendCommand(btn: string)
      modifies this, hub
      ensures var r := CommandRun(hub.Cred(), url, old(State()), btn, old(hub.responses));
        State() == r.value && hub.sent == old(hub.sent) + r.sent && hub.responses == r.rest
    {
      var doc := hub.GetSoup(url);
      if doc.None? {
        return;
      }
      var form := CommandForm(doc.value, btn, targetTemperature);
      if form.None? {
        // no __VIEWSTATE on the page, or a token element without a value
        return;
      }
      ghost var sent1 := hub.sent;
      var ok := hub.SendCommand(url, form.value);
      if ok {
        ghost var sent2 := hub.sent;
        Update();
        AppendAssoc(sent1, sent2[|sent1|..], hub.sent[|sent2|..]);
      }
      AppendAssoc(old(hub.sent), sent1[|old(hub.sent)|..], hub.sent[|sent1|..]);
    }
  }

  // ---------------------------------------------------------------------------
  // Properties

  /**
   * The away marker wins over the on marker, which wins over neither: away gives
   * Heat/away, on alone gives Heat/home, and no marker gives Off/home.
   */
  lemma ObservePrecedence(s: HeaterState, doc: Document)
    ensures var o := Observe(s, doc);
      var away := Contains(doc.text, "icon_b_boiler_away");
      var on := Contains(doc.text, "icon_b_boiler_on");
      && (away ==> o.hvac == Heat && o.preset == PRESET_AWAY)
      && (!away && on ==> o.hvac == Heat && o.preset == PRESET_HOME)
      && (!away && !on ==> o.hvac == Off && o.preset == PRESET_HOME)
  {
  }

  /**
   * A readable setpoint becomes both the target and the current temperature; an
   * absent or unparsable one leaves both as they were.
   */
  lemma ObserveSetpoint(s: HeaterState, doc: Document)
    ensures var o := Observe(s, doc);
      && (ReadSetpoint(doc).Some? ==> o.target == ReadSetpoint(doc).value && o.current == Some(o.target))
      && (ReadSetpoint(doc).None? ==> o.target == s.target && o.current == s.current)
  {
  }

  /** With no page (fetch failed, or session could not be restored) `update` changes nothing. */
  lemma UpdateWithoutPage(c: Credentials, url: string, s: HeaterState, script: seq<Exchange>)
    requires GetSoupRun(c, url, script).value.None?
    ensures UpdateRun(c, url, s, script).value == s
  {
  }

  /** A page showing the on marker and setpoint "22" reads as heating, home preset, 22 degrees. */
  lemma ObserveHeatingAt22(s: HeaterState)
    ensures var doc := Document("icon_b_boiler_on", map[SETPOINT_INPUT := Element(Some("22"))]);
      Observe(s, doc) == HeaterState(Heat, PRESET_HOME, 22.0, Some(22.0))
  {
    ParseIntToDecimal(22);
    assert NatToDecimal(22) == NatToDecimal(2) + [DigitChar(2)];
    assert IntToDecimal(22) == "22";
    var doc := Document("icon_b_boiler_on", map[SETPOINT_INPUT := Element(Some("22"))]);
    assert Contains(doc.text, "icon_b_boiler_on");
  }

  /**
   * After a page has been read, a request for the home preset clicks `btnOn` unless the
   * page showed the heater on at home, in which case nothing is sent.
   */
  lemma HomeRequestAfterObserve(s: HeaterState, doc: Document)
    ensures var away := Contains(doc.text, "icon_b_boiler_away");
      var on := Contains(doc.text, "icon_b_boiler_on");
      PresetButton(Observe(s, doc), PRESET_HOME) == if on && !away then None else Some("btnOn")
  {
  }

  /** Only Heat and Off click a button, `btnOn` and `btnOff` respectively. */
  lemma HvacButtons(mode: HvacMode)
    ensures HvacButton(mode).Some? <==> mode == Heat || mode == Off
    ensures mode == Heat ==> HvacButton(mode) == Some("btnOn")
    ensures mode == Off ==> HvacButton(mode) == Some("btnOff")
  {
  }

  /**
   * The command postback exists exactly for pages with readable tokens; it holds the
   * click envelope for `btn`, and its setpoint field reads back as the integer part of the target.
   */
  lemma CommandFormSpec(doc: Document, btn: string, target: real)
    ensures CommandForm(doc, btn, target).Some? <==> HasReadableTokens(doc)
    ensures CommandForm(doc, btn, target).Some? ==>
      var f := CommandForm(doc, btn, target).value;
      && f.Keys == ButtonPostback(ReadTokens(doc).value, btn).Keys + {SETPOINT_INPUT}
      && f["ScriptManager1"] == "UpdatePanel1|" + btn
      && f[btn + ".x"] == "30" && f[btn + ".y"] == "10" && f["__ASYNCPOST"] == "true"
      && f[VIEWSTATE] == doc.byId[VIEWSTATE].value.value
      && f[VIEWSTATE_GENERATOR]
         == (if VIEWSTATE_GENERATOR in doc.byId then doc.byId[VIEWSTATE_GENERATOR].value.value else "")
      && f[EVENT_VALIDATION]
         == (if EVENT_VALIDATION in doc.byId then doc.byId[EVENT_VALIDATION].value.value else "")
      && ParseNumber(f[SETPOINT_INPUT]) == Some(Trunc(target) as real)
  {
    ReadTokensSpec(doc);
    ParseIntToDecimal(Trunc(target));
    if CommandForm(doc, btn, target).Some? {
      ButtonPostbackSpec(ReadTokens(doc).value, btn);
      assert (btn + ".x")[|btn + ".x"| - 1] == 'x';
      assert (btn + ".y")[|btn + ".y"| - 1] == 'y';
    }
  }

  /**
   * Without a page or without a viewstate on it, a command posts nothing beyond the
   * page fetch and leaves the state unchanged.
   */
  lemma CommandNeedsPage(c: Credentials, url: string, s: HeaterState, btn: string, script: seq<Exchange>)
    requires var page := GetSoupRun(c, url, script);
      page.value.None? || VIEWSTATE !in page.value.value.byId
    ensures CommandRun(c, url, s, btn, script)
            == Run(s, GetSoupRun(c, url, script).sent, GetSoupRun(c, url, script).rest)
  {
  }

  /** A rejected postback leaves the state as it was; an accepted one is followed by a refresh. */
  lemma CommandRefreshesOnSuccess(c: Credentials, url: string, s: HeaterState, btn: string, script: seq<Exchange>)
    requires var page := GetSoupRun(c, url, script);
      page.value.Some? && CommandForm(page.value.value, btn, s.target).Some?
    ensures var page := GetSoupRun(c, url, script);
      var post := SendCommandRun(c, url, CommandForm(page.value.value, btn, s.target).value, page.rest);
      var r := CommandRun(c, url, s, btn, script);
      && (!post.value ==> r.value == s && r.rest == post.rest && r.sent == page.sent + post.sent)
      && (post.value ==> r.value == UpdateRun(c, url, s, post.rest).value
                         && r.sent == page.sent + post.sent + UpdateRun(c, url, s, post.rest).sent)
  {
  }
}
