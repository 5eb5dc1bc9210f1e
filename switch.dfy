/**
 * The light entity: on/off is read from a status marker on the device's detail page,
 * and turning it on or off is one button postback through the hub.
 */
module Switch {
  import opened Wrappers
  import opened Text
  import opened Web
  import opened Hub
  import opened Const

  function LightUrl(host: string, deviceId: string): string
  {
    host + "/SmartWeb/My_Home/Detail_Control_Light.aspx?device_no=" + deviceId
  }

  /** The on/off state `update` derives from the fetched page (None: the fetch failed). */
  function Observe(doc: Option<Document>): bool
  {
    doc.Some? && Contains(doc.value.text, "icon_b_light_on")
  }

  /** The image button for an action: "btn" followed by the capitalised action. */
  function ActionButton(action: string): string
  {
    "btn" + Capitalize(action)
  }

  /** The postback for `action`, or None when the page has no usable tokens. */
  function OperateForm(doc: Document, action: string): Option<Form>
  {
    match ReadTokens(doc)
    case None => None
    case Some(t) => Some(ButtonPostback(t, ActionButton(action)))
  }

  /** `update` over a response script. */
  function UpdateRun(c: Credentials, url: string, script: seq<Exchange>): Run<bool>
  {
    var page := GetSoupRun(c, url, script);
    Run(Observe(page.value), page.sent, page.rest)
  }

  /** `_operate(action)` over a response script, from on/off state `isOn`. */
  function OperateRun(c: Credentials, url: string, isOn: bool, action: string, script: seq<Exchange>): Run<bool>
  {
    var page := GetSoupRun(c, url, script);
    if page.value.None? then Run(isOn, page.sent, page.rest)
    else
      match OperateForm(page.value.value, action)
      case None => Run(isOn, page.sent, page.rest)
      case Some(form) =>
        var post := SendCommandRun(c, url, form, page.rest);
        Run(if post.value then action == "on" else isOn, page.sent + post.sent, post.rest)
  }

  class SmartWebLight {
    const hub: SmartWebHub
    const name: string
    const deviceId: string
    const url: string
    const uniqueId: string
    var isOn: bool

    constructor (hub: SmartWebHub, name: string, deviceId: string, entryId: string)
      ensures this.hub == hub && this.name == name && this.deviceId == deviceId
      ensures url == LightUrl(hub.host, deviceId)
      ensures uniqueId == DOMAIN + "_" + entryId + "_light_" + deviceId
      ensures !isOn
    {
      this.hub := hub;
      this.name := name;
      this.deviceId := deviceId;
      url := LightUrl(hub.host, deviceId);
      uniqueId := DOMAIN + "_" + entryId + "_light_" + deviceId;
      isOn := false;
    }

    method Update()
      modifies this, hub
      ensures var r := UpdateRun(hub.Cred(), url, old(hub.responses));
        isOn == r.value && hub.sent == old(hub.sent) + r.sent && hub.responses == r.rest
    {
      var doc := hub.GetSoup(url);
      if doc.Some? && Contains(doc.value.text, "icon_b_light_on") {
        isOn := true;
      } else {
        isOn := false;
      }
    }

    method TurnOn()
      modifies this, hub
      ensures var r := OperateRun(hub.Cred(), url, old(isOn), "on", old(hub.responses));
        isOn == r.value && hub.sent == old(hub.sent) + r.sent && hub.responses == r.rest
    {
      Operate("on");
    }

    method TurnOff()
      modifies this, hub
      ensures var r := OperateRun(hub.Cred(), url, old(isOn), "off", old(hub.responses));
        isOn == r.value && hub.sent == old(hub.sent) + r.sent && hub.responses == r.rest
    {
      Operate("off");
    }

    /** `_operate`: click the button for `action`; adopt the new state if the hub reports success. */
    method Operate(action: string)
      modifies this, hub
      ensures var r := OperateRun(hub.Cred(), url, old(isOn), action, old(hub.responses));
        isOn == r.value && hub.sent == old(hub.sent) + r.sent && hub.responses == r.rest
    {
      var doc := hub.GetSoup(url);
      if doc.None? {
        return;
      }
      var form := OperateForm(doc.value, action);
      if form.None? {
        // no __VIEWSTATE on the page, or a token element without a value
        return;
      }
      ghost var sent1 := hub.sent;
      var ok := hub.SendCommand(url, form.value);
      if ok {
        isOn := action == "on";
      }
      AppendAssoc(old(hub.sent), sent1[|old(hub.sent)|..], hub.sent[|sent1|..]);
    }
  }

  // ---------------------------------------------------------------------------
  // Properties

  /** The light is on exactly when a page was fetched and shows the on marker; no page means off. */
  lemma UpdateIff(c: Credentials, url: string, script: seq<Exchange>)
    ensures UpdateRun(c, url, script).value
            <==> GetSoupRun(c, url, script).value.Some?
                 && Contains(GetSoupRun(c, url, script).value.value.text, "icon_b_light_on")
    ensures GetSoupRun(c, url, script).value.None? ==> !UpdateRun(c, url, script).value
  {
  }

  /** Turning on clicks `btnOn` and turning off clicks `btnOff`. */
  lemma ActionButtons()
    ensures ActionButton("on") == "btnOn"
    ensures ActionButton("off") == "btnOff"
  {
  }

  /**
   * The operate postback exists exactly for pages with readable tokens and is the click
   * envelope for the action's button.
   */
  lemma OperateFormSpec(doc: Document, action: string)
    ensures OperateForm(doc, action).Some? <==> HasReadableTokens(doc)
    ensures OperateForm(doc, action).Some? ==>
      var f := OperateForm(doc, action).value;
      var btn := ActionButton(action);
      && f.Keys == ButtonPostback(ReadTokens(doc).value, btn).Keys
      && f[VIEWSTATE] == doc.byId[VIEWSTATE].value.value
      && f[VIEWSTATE_GENERATOR]
         == (if VIEWSTATE_GENERATOR in doc.byId then doc.byId[VIEWSTATE_GENERATOR].value.value else "")
      && f[EVENT_VALIDATION]
         == (if EVENT_VALIDATION in doc.byId then doc.byId[EVENT_VALIDATION].value.value else "")
      && f["ScriptManager1"] == "UpdatePanel1|" + btn
      && f[btn + ".x"] == "30" && f[btn + ".y"] == "10" && f["__ASYNCPOST"] == "true"
  {
    ReadTokensSpec(doc);
    if OperateForm(doc, action).Some? {
      ButtonPostbackSpec(ReadTokens(doc).value, ActionButton(action));
    }
  }

  /**
   * Without a page or without a viewstate on it, operating posts nothing beyond the
   * page fetch and leaves the state unchanged.
   */
  lemma OperateNeedsPage(c: Credentials, url: string, isOn: bool, action: string, script: seq<Exchange>)
    requires var page := GetSoupRun(c, url, script);
      page.value.None? || VIEWSTATE !in page.value.value.byId
    ensures OperateRun(c, url, isOn, action, script)
            == Run(isOn, GetSoupRun(c, url, script).sent, GetSoupRun(c, url, script).rest)
  {
  }

  /**
   * The state changes only through an accepted postback, and then to whether the
   * action was "on"; a postback the hub reports as failed leaves it unchanged.
   */
  lemma OperateOutcome(c: Credentials, url: string, isOn: bool, action: string, script: seq<Exchange>)
    requires var page := GetSoupRun(c, url, script);
      page.value.Some? && OperateForm(page.value.value, action).Some?
    ensures var page := GetSoupRun(c, url, script);
      var post := SendCommandRun(c, url, OperateForm(page.value.value, action).value, page.rest);
      var r := OperateRun(c, url, isOn, action, script);
      && r.value == (if post.value then action == "on" else isOn)
      && r.sent == page.sent + post.sent
  {
  }

  /** Turning on leaves the light on or as it was; turning off leaves it off or as it was. */
  lemma OperateNeverInverts(c: Credentials, url: string, isOn: bool, script: seq<Exchange>)
    ensures var on := OperateRun(c, url, isOn, "on", script).value;
      on || on == isOn
    ensures var off := OperateRun(c, url, isOn, "off", script).value;
      !off || off == isOn
  {
  }
}
