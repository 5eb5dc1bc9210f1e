/**
 * The configuration wizard: the initial setup (connection test, then one or more
 * devices) and the options flow that adds or removes devices and edits credentials.
 */
module ConfigFlow {
  import opened Wrappers
  import opened Web
  import opened Hub
  import opened Text
  import opened Const

  const CONF_HOST := "host"
  const CONF_USERNAME := "username"
  const CONF_PASSWORD := "password"

  /** A configured device: display name, type ("light" or "heater") and device number. */
  datatype Device = Device(name: string, kind: string, id: string)

  /** A value stored in the config entry's data. */
  datatype Value = Str(s: string) | DeviceList(devices: seq<Device>)

  type EntryData = map<string, Value>

  /** How the connection test ended: it returned true, returned false, or raised. */
  datatype TestOutcome = Passed | Rejected | Errored

  /** What a flow step shows next. */
  datatype FlowResult =
    | Form(step: string, errors: map<string, string>, choices: map<string, string>)
    | Menu(options: seq<string>)
    | CreateEntry(title: string, data: EntryData)
    | Abort(reason: string)

  /** The label a device is listed and selected by: "name (id)". */
  function Label(d: Device): string
  {
    d.name + " (" + d.id + ")"
  }

  function UniqueId(host: string): string
  {
    DOMAIN + "_" + host
  }

  function EntryTitle(host: string): string
  {
    "Postown SmartWeb (" + host + ")"
  }

  /** The form errors for a connection test that did not pass. */
  function TestErrors(outcome: TestOutcome): (errors: map<string, string>)
    ensures outcome == Passed <==> "base" !in errors
    ensures outcome == Passed ==> errors == map[]
    ensures outcome == Rejected ==> errors == map["base" := "invalid_auth"]
    ensures outcome == Errored ==> errors == map["base" := "cannot_connect"]
  {
    match outcome
    case Passed => map[]
    case Rejected => map["base" := "invalid_auth"]
    case Errored => map["base" := "cannot_connect"]
  }

  /** A connection test over the hub model: a fresh hub's login on the given server script. */
  function TestOutcomeOf(host: string, username: string, password: string, server: seq<Exchange>): TestOutcome
  {
    if LoginRun(Credentials(RStrip(host, '/'), username, password), server).value then Passed else Rejected
  }

  /**
   * The user step's result after the connection test, as the code is written: the
   * "already configured" abort is raised inside the `try` whose `except Exception`
   * turns it into a `cannot_connect` error.
   */
  function UserStepAsWritten(outcome: TestOutcome, uniqueId: string, configured: set<string>): FlowResult
  {
    match outcome
    case Passed =>
      if uniqueId in configured then Form("user", map["base" := "cannot_connect"], map[])
      else Form("add_device", map[], map[])
    case _ => Form("user", TestErrors(outcome), map[])
  }

  /**
   * The user step's result after the connection test, with the abort for an already
   * configured host propagated as intended.
   */
  function UserStep(outcome: TestOutcome, uniqueId: string, configured: set<string>): (res: FlowResult)
    ensures outcome == Passed && uniqueId in configured ==> res == Abort("already_configured")
    ensures outcome == Passed && uniqueId !in configured ==> res == Form("add_device", map[], map[])
    ensures outcome != Passed ==> res == Form("user", TestErrors(outcome), map[])
  {
    match outcome
    case Passed =>
      if uniqueId in configured then Abort("already_configured")
      else Form("add_device", map[], map[])
    case _ => Form("user", TestErrors(outcome), map[])
  }

  /** The devices stored in an entry; none when the entry has no device list. */
  function DevicesOf(data: EntryData): seq<Device>
  {
    if CONF_DEVICES in data && data[CONF_DEVICES].DeviceList? then data[CONF_DEVICES].devices else []
  }

  /** The entry data the initial setup creates. */
  function NewEntryData(host: string, username: string, password: string, devices: seq<Device>): (data: EntryData)
    ensures data.Keys == {CONF_HOST, CONF_USERNAME, CONF_PASSWORD, CONF_DEVICES}
    ensures data[CONF_HOST] == Str(host) && data[CONF_USERNAME] == Str(username)
    ensures data[CONF_PASSWORD] == Str(password)
    ensures DevicesOf(data) == devices
  {
    map[CONF_HOST := Str(host), CONF_USERNAME := Str(username), CONF_PASSWORD := Str(password),
        CONF_DEVICES := DeviceList(devices)]
  }

  /** Removal keeps, in order, the devices whose label differs from `selection`. */
  function RemoveLabelled(devices: seq<Device>, selection: string): (kept: seq<Device>)
    ensures |kept| <= |devices|
    ensures forall d :: d in kept <==> d in devices && Label(d) != selection
  {
    if devices == [] then []
    else (if Label(devices[0]) != selection then [devices[0]] else []) + RemoveLabelled(devices[1..], selection)
  }

  /** The labels of the devices. */
  function Labels(devices: seq<Device>): set<string>
  {
    set d | d in devices :: Label(d)
  }

  /** The options offered for removal: each current device's label, mapped to itself. */
  function RemovalOptions(devices: seq<Device>): (options: map<string, string>)
    ensures options.Keys == Labels(devices)
    ensures forall k :: k in options ==> options[k] == k
  {
    map k | k in Labels(devices) :: k
  }

  /** The entry data after a credential edit: host, username and password replaced. */
  function EditCredentials(data: EntryData, host: string, username: string, password: string): (edited: EntryData)
    ensures edited.Keys == data.Keys + {CONF_HOST, CONF_USERNAME, CONF_PASSWORD}
    ensures edited[CONF_HOST] == Str(host) && edited[CONF_USERNAME] == Str(username)
    ensures edited[CONF_PASSWORD] == Str(password)
    ensures forall k :: k in data && k !in {CONF_HOST, CONF_USERNAME, CONF_PASSWORD} ==> edited[k] == data[k]
  {
    data[CONF_HOST := Str(host)][CONF_USERNAME := Str(username)][CONF_PASSWORD := Str(password)]
  }

  /** The initial setup flow. */
  class PostownSmartWebConfigFlow {
    var host: string
    var username: string
    var password: string
    var devices: seq<Device>
    var uniqueId: Option<string>

    constructor ()
      ensures host == "" && username == "" && password == ""
      ensures devices == [] && uniqueId == None
    {
      host, username, password := "", "", "";
      devices := [];
      uniqueId := None;
    }

    /**
     * The connection step. `server` answers the test hub's requests; `configured` holds
     * the unique ids already taken by other entries.
     */
    method StepUser(input: Option<Credentials>, server: seq<Exchange>, configured: set<string>)
      returns (res: FlowResult)
      modifies this
      ensures devices == old(devices)
      ensures input.None? ==>
        res == Form("user", map[], map[]) && host == old(host) && username == old(username)
        && password == old(password) && uniqueId == old(uniqueId)
      ensures input.Some? ==>
        var outcome := TestOutcomeOf(input.value.host, input.value.username, input.value.password, server);
        && host == input.value.host && username == input.value.username && password == input.value.password
        && res == UserStep(outcome, UniqueId(host), configured)
        && uniqueId == if outcome == Passed then Some(UniqueId(host)) else old(uniqueId)
    {
      if input.None? {
        return Form("user", map[], map[]);
      }
      host := input.value.host;
      username := input.value.username;
      password := input.value.password;
      var hub := new SmartWebHub(host, username, password, server);
      var ok := hub.TestConnection();
      if ok {
        uniqueId := Some(UniqueId(host));
        if UniqueId(host) in configured {
          return Abort("already_configured");
        }
        res := StepAddDevice(None, false);
      } else {
        res := Form("user", TestErrors(Rejected), map[]);
      }
    }

    /** The device step; `addAnother` is the form's "add another" checkbox. */
    method StepAddDevice(input: Option<Device>, addAnother: bool) returns (res: FlowResult)
      modifies this`devices
      decreases input.Some?
      ensures input.None? ==> res == Form("add_device", map[], map[]) && devices == old(devices)
      ensures input.Some? ==> devices == old(devices) + [input.value]
      ensures input.Some? && addAnother ==> res == Form("add_device", map[], map[])
      ensures input.Some? && !addAnother ==>
        res == CreateEntry(EntryTitle(host), NewEntryData(host, username, password, devices))
    {
      if input.None? {
        return Form("add_device", map[], map[]);
      }
      devices := devices + [Device(input.value.name, input.value.kind, input.value.id)];
      if addAnother {
        res := StepAddDevice(None, false);
        return;
      }
      res := CreateEntry(EntryTitle(host), NewEntryData(host, username, password, devices));
    }
  }

  /** The options flow of an existing entry, whose data `entryData` it updates. */
  class PostownSmartWebOptionsFlow {
    var entryData: EntryData
    var devices: seq<Device>

    constructor (data: EntryData)
      ensures entryData == data && devices == DevicesOf(data)
    {
      entryData := data;
      devices := DevicesOf(data);
    }

    method StepInit() returns (res: FlowResult)
      ensures res == Menu(["add_device", "remove_device", "edit_credentials"])
    {
      res := Menu(["add_device", "remove_device", "edit_credentials"]);
    }

    method StepAddDevice(input: Option<Device>) returns (res: FlowResult)
      modifies this
      ensures input.None? ==>
        res == Form("add_device", map[], map[]) && devices == old(devices) && entryData == old(entryData)
      ensures input.Some? ==>
        && devices == old(devices) + [input.value]
        && entryData == old(entryData)[CONF_DEVICES := DeviceList(devices)]
        && res == CreateEntry("", map[])
    {
      if input.None? {
        return Form("add_device", map[], map[]);
      }
      devices := devices + [Device(input.value.name, input.value.kind, input.value.id)];
      entryData := entryData[CONF_DEVICES := DeviceList(devices)];
      res := CreateEntry("", map[]);
    }

    /** The removal step; `selection` is the chosen label. */
    method StepRemoveDevice(selection: Option<string>) returns (res: FlowResult)
      modifies this
      ensures old(devices) == [] ==>
        res == Abort("no_devices") && devices == old(devices) && entryData == old(entryData)
      ensures old(devices) != [] && selection.None? ==>
        res == Form("remove_device", map[], RemovalOptions(devices))
        && devices == old(devices) && entryData == old(entryData)
      ensures old(devices) != [] && selection.Some? ==>
        && devices == RemoveLabelled(old(devices), selection.value)
        && entryData == old(entryData)[CONF_DEVICES := DeviceList(devices)]
        && res == CreateEntry("", map[])
    {
      if devices == [] {
        return Abort("no_devices");
      }
      if selection.Some? {
        devices := RemoveLabelled(devices, selection.value);
        entryData := entryData[CONF_DEVICES := DeviceList(devices)];
        return CreateEntry("", map[]);
      }
      res := Form("remove_device", map[], RemovalOptions(devices));
    }

    /** The credential step; `server` answers the test hub's requests. */
    method StepEditCredentials(input: Option<Credentials>, server: seq<Exchange>) returns (res: FlowResult)
      modifies this
      ensures devices == old(devices)
      ensures input.None? ==> res == Form("edit_credentials", map[], map[]) && entryData == old(entryData)
      ensures input.Some? ==>
        var outcome := TestOutcomeOf(input.value.host, input.value.username, input.value.password, server);
        && (outcome == Passed ==>
              entryData == EditCredentials(old(entryData), input.value.host, input.value.username, input.value.password)
              && res == CreateEntry("", map[]))
        && (outcome != Passed ==>
              entryData == old(entryData) && res == Form("edit_credentials", TestErrors(outcome), map[]))
    {
      if input.None? {
        return Form("edit_credentials", map[], map[]);
      }
      var hub := new SmartWebHub(input.value.host, input.value.username, input.value.password, server);
      var ok := hub.TestConnection();
      if ok {
        entryData := EditCredentials(entryData, input.value.host, input.value.username, input.value.password);
        return CreateEntry("", map[]);
      }
      res := Form("edit_credentials", TestErrors(Rejected), map[]);
    }
  }

  // ---------------------------------------------------------------------------
  // Properties

  /** Removal distributes over concatenation: it keeps the relative order of what it keeps. */
  lemma {:induction false} RemoveConcat(a: seq<Device>, b: seq<Device>, selection: string)
    ensures RemoveLabelled(a + b, selection) == RemoveLabelled(a, selection) + RemoveLabelled(b, selection)
    decreases |a|
  {
    if a == [] {
      assert a + b == b;
    } else {
      assert (a + b)[1..] == a[1..] + b;
      RemoveConcat(a[1..], b, selection);
    }
  }

  /** Removing a label that no device has changes nothing. */
  lemma {:induction false} RemoveAbsent(devices: seq<Device>, selection: string)
    requires forall d :: d in devices ==> Label(d) != selection
    ensures RemoveLabelled(devices, selection) == devices
    decreases |devices|
  {
    if devices != [] {
      RemoveAbsent(devices[1..], selection);
    }
  }

  /** Removing twice removes nothing more. */
  lemma RemoveIdempotent(devices: seq<Device>, selection: string)
    ensures RemoveLabelled(RemoveLabelled(devices, selection), selection) == RemoveLabelled(devices, selection)
  {
    RemoveAbsent(RemoveLabelled(devices, selection), selection);
  }

  /** Choosing any offered option removes at least one device. */
  lemma {:induction false} OfferedRemovalShrinks(devices: seq<Device>, selection: string)
    requires selection in RemovalOptions(devices)
    ensures |RemoveLabelled(devices, selection)| < |devices|
    decreases |devices|
  {
    if Label(devices[0]) != selection {
      assert selection in RemovalOptions(devices[1..]) by {
        var d :| d in devices && Label(d) == selection;
        assert d in devices[1..];
      }
      OfferedRemovalShrinks(devices[1..], selection);
    }
  }

  /**
   * As written, a host that is already configured and passes the connection test is
   * reported as "cannot_connect" instead of aborting with "already_configured".
   */
  lemma AlreadyConfiguredMisreported()
    ensures var id := UniqueId("http://sdexpo9.postown.net");
      && UserStepAsWritten(Passed, id, {id}) == Form("user", map["base" := "cannot_connect"], map[])
      && UserStep(Passed, id, {id}) == Abort("already_configured")
  {
  }

  /** Apart from the already-configured case, the corrected step agrees with the code as written. */
  lemma UserStepAgrees(outcome: TestOutcome, uniqueId: string, configured: set<string>)
    ensures !(outcome == Passed && uniqueId in configured) ==>
      UserStep(outcome, uniqueId, configured) == UserStepAsWritten(outcome, uniqueId, configured)
  {
  }
}
