/** `config_flow.py`: the config flow that adds a WiZ bulb, from the user form or from a
    DHCP or integration discovery. The framework's entry registry and the home-config
    store are objects the flow updates; the bulb, `is_ip_address`, onboarding, the HTTP
    download and the JSON decoder are inputs. A flow answers a `FlowResult`. */
module ConfigFlow {
  import opened Wrappers
  import opened Json
  import opened Bulb
  import opened Naming
  import opened Storage
  import opened FlowHelpers

  datatype FlowResult =
    | CreateEntry(title: string, data: map<string, string>)
    | Abort(reason: string)
    | ShowForm(stepId: string, errors: map<string, string>, hasLinkField: bool)

  /** What the user form submits: the host and the home link, each possibly absent. */
  datatype UserInput = UserInput(host: Option<string>, link: Option<string>)

  /** The `base` error the flow reports for a bulb exception: every exception is caught. */
  function FlowBaseError(e: BulbError): (r: string)
    ensures r == "cannot_connect" <==> e == ConnectionError
    ensures r == "bulb_time_out" <==> e == TimeOutError
    ensures r == "unknown" <==> e != ConnectionError && e != TimeOutError
  {
    match e
    case ConnectionError => "cannot_connect"
    case TimeOutError => "bulb_time_out"
    case _ => "unknown"
  }

  /** `async_validate_and_connect_bulb` of the flow. */
  function FlowValidation(host: string, isIp: string -> bool, bulb: BulbOracle): (v: Validation)
    ensures host == "" ==> v == Validation(None, None, map[CONF_HOST := "host_required"])
    ensures host != "" && !isIp(host) ==> v == Validation(None, None, map[CONF_HOST := "no_ip"])
    ensures host != "" && isIp(host) && Probe(bulb, host).Fail? ==>
      v == Validation(None, None, map[BASE := FlowBaseError(Probe(bulb, host).error)])
    ensures v.errors == map[] <==> v.bulbType.Some?
    ensures v.bulbType.Some? <==> host != "" && isIp(host) && Probe(bulb, host).Answer?
    ensures v.bulbType.Some? ==> v.bulbType.value == Probe(bulb, host).value.0 && v.mac == Probe(bulb, host).value.1
  {
    if host == "" then
      var errors := map[CONF_HOST := "host_required"];
      assert CONF_HOST in errors;
      Validation(None, None, errors)
    else if !isIp(host) then
      var errors := map[CONF_HOST := "no_ip"];
      assert CONF_HOST in errors;
      Validation(None, None, errors)
    else match Probe(bulb, host)
      case Fail(e) =>
        var errors := map[BASE := FlowBaseError(e)];
        assert BASE in errors;
        Validation(None, None, errors)
      case Answer((bt, mac)) => Validation(Some(bt), mac, map[])
  }

  /** What `build_full_bulb_name` is handed: the bulb type, or the text `str(bulbtype)`. */
  datatype BulbTypeArg = TypeObject(bt: BulbType) | TypeText(text: string)

  /** `build_full_bulb_name` with either argument. It always reads `bulb_type.bulb_type`,
      which a string does not have: `AttributeError`. The device lookup before it catches
      its own exceptions. */
  function BuildFullBulbName(defaultName: string, arg: BulbTypeArg, mac: string, config: Json): (r: Result<string, PyError>)
    ensures arg.TypeObject? ==> r == Ok(FullBulbName(defaultName, arg.bt, mac, config))
    ensures arg.TypeText? ==> r == Err(AttributeError)
  {
    match arg
    case TypeObject(bt) => Ok(FullBulbName(defaultName, bt, mac, config))
    case TypeText(_) => Err(AttributeError)
  }

  /** Entry `i` is the first entry, ignored ones included, with unique id `uid`. */
  predicate ConfiguredAt(entries: seq<ConfigEntry>, uid: string, i: int) {
    0 <= i < |entries| && entries[i].uniqueId == Some(uid) &&
    forall j :: 0 <= j < i ==> entries[j].uniqueId != Some(uid)
  }

  /** The entry `_abort_if_unique_id_configured` finds for `uid`. */
  function ConfiguredIndex(entries: seq<ConfigEntry>, uid: string): (r: Option<nat>)
    ensures r.None? <==> forall i :: 0 <= i < |entries| ==> entries[i].uniqueId != Some(uid)
    ensures r.Some? ==> ConfiguredAt(entries, uid, r.value)
  {
    if entries == [] then None
    else if entries[0].uniqueId == Some(uid) then Some(0)
    else
      var r := ConfiguredIndex(entries[1..], uid);
      assert forall i :: 1 <= i < |entries| ==> entries[i] == entries[1..][i - 1];
      if r.Some? then Some(r.value + 1) else None
  }

  /** The entries after the configured entry `i` gets `host`. */
  function WithHost(entries: seq<ConfigEntry>, i: nat, host: string): seq<ConfigEntry>
    requires i < |entries|
  {
    entries[i := entries[i].(data := entries[i].data[CONF_HOST := host])]
  }

  /** `async_create_bulb_entry` on the registry's entries: its result and the entries after
      it, or the exception the title raises. */
  function CreateBulbEntryOutcome(defaultName: string, entries: seq<ConfigEntry>, host: string,
                                  arg: BulbTypeArg, mac: string, config: Json)
    : Result<(FlowResult, seq<ConfigEntry>), PyError>
  {
    match ConfiguredIndex(entries, mac)
    case Some(i) => Ok((Abort("already_configured"), WithHost(entries, i, host)))
    case None =>
      var data := EntryData(host, HomeLinkFromEntries(CurrentEntries(entries)));
      match BuildFullBulbName(defaultName, arg, mac, config)
      case Err(e) => Err(e)
      case Ok(title) => Ok((CreateEntry(title, data), entries + [ConfigEntry(Some(mac), data, title, false)]))
  }

  /** A MAC already registered creates nothing: the flow aborts and only that entry's host
      changes. */
  lemma DuplicateMacUpdatesHostOnly(defaultName: string, entries: seq<ConfigEntry>, host: string,
                                    arg: BulbTypeArg, mac: string, config: Json, i: int)
    requires ConfiguredAt(entries, mac, i)
    ensures var r := CreateBulbEntryOutcome(defaultName, entries, host, arg, mac, config);
      && r.Ok? && r.value.0 == Abort("already_configured")
      && |r.value.1| == |entries|
      && (forall j :: 0 <= j < |entries| && j != i ==> r.value.1[j] == entries[j])
      && r.value.1[i].data == entries[i].data[CONF_HOST := host]
      && r.value.1[i].uniqueId == entries[i].uniqueId && r.value.1[i].title == entries[i].title
  {
    var k := ConfiguredIndex(entries, mac);
    assert k == Some(i);
  }

  /** A new MAC creates one entry, appended, whose data is the host plus the home link of the
      first current entry that has one, when that link is not empty. */
  lemma NewEntryCarriesFirstLink(defaultName: string, entries: seq<ConfigEntry>, host: string,
                                 bt: BulbType, mac: string, config: Json)
    requires forall i :: 0 <= i < |entries| ==> entries[i].uniqueId != Some(mac)
    ensures var r := CreateBulbEntryOutcome(defaultName, entries, host, TypeObject(bt), mac, config);
      var link := HomeLinkFromEntries(CurrentEntries(entries));
      && r.Ok? && r.value.0.CreateEntry?
      && r.value.0.title == FullBulbName(defaultName, bt, mac, config)
      && r.value.0.data[CONF_HOST] == host
      && (WIZ_HOME_LINK in r.value.0.data <==> link.Some? && link.value != "")
      && (link.Some? ==> exists j :: FirstLinkAt(CurrentEntries(entries), j) &&
                                     link.value == CurrentEntries(entries)[j].data[WIZ_HOME_LINK])
      && r.value.1 == entries + [ConfigEntry(Some(mac), r.value.0.data, r.value.0.title, false)]
  {
  }

  /** `async_step_discovery_confirm` as written, for the bulb at `ip`: it hands the entry
      step `str(bulbtype)`, here `text`, instead of the bulb type. */
  function ConfirmAsWritten(defaultName: string, entries: seq<ConfigEntry>, ip: string, isIp: string -> bool,
                            bulb: BulbOracle, config: Json, text: string)
    : Result<(FlowResult, seq<ConfigEntry>), PyError>
  {
    var v := FlowValidation(ip, isIp, bulb);
    if v.bulbType.Some? && v.mac.Some? then
      CreateBulbEntryOutcome(defaultName, entries, ip, TypeText(text), v.mac.value, config)
    else Ok((Abort("cannot_connect"), entries))
  }

  /** For a reachable bulb whose MAC is not yet configured, the confirmation as written
      raises `AttributeError` whatever `str(bulbtype)` is, while the entry step handed the
      bulb type creates the entry. */
  lemma ConfirmAsWrittenRaises(defaultName: string, entries: seq<ConfigEntry>, ip: string, isIp: string -> bool,
                               bulb: BulbOracle, config: Json, text: string)
    requires ip != "" && isIp(ip) && Probe(bulb, ip).Answer? && Probe(bulb, ip).value.1.Some?
    requires forall i :: 0 <= i < |entries| ==> entries[i].uniqueId != Some(Probe(bulb, ip).value.1.value)
    ensures ConfirmAsWritten(defaultName, entries, ip, isIp, bulb, config, text) == Err(AttributeError)
    ensures var v := FlowValidation(ip, isIp, bulb);
      var r := CreateBulbEntryOutcome(defaultName, entries, ip, TypeObject(v.bulbType.value), v.mac.value, config);
      r.Ok? && r.value.0.CreateEntry? && |r.value.1| == |entries| + 1
  {
    var v := FlowValidation(ip, isIp, bulb);
    assert ConfiguredIndex(entries, v.mac.value).None?;
  }

  /** `WizConfigFlow`. `probes` records the hosts the flow contacted. */
  class WizConfigFlow {
    var discoveredDevice: Option<DiscoveredBulb>
    var uniqueId: Option<string>
    const registry: EntryRegistry
    const store: HomeConfigStore
    ghost var probes: seq<string>

    constructor (registry: EntryRegistry, store: HomeConfigStore)
      ensures discoveredDevice == None && uniqueId == None && probes == []
      ensures this.registry == registry && this.store == store
    {
      discoveredDevice := None;
      uniqueId := None;
      this.registry := registry;
      this.store := store;
      probes := [];
    }

    /** `_is_first_setup`: nothing stored, or a falsy `config`. */
    function IsFirstSetup(): (first: bool)
      reads this, store
      ensures first <==> !Truthy(store.LoadConfig())
      ensures store.slot.None? ==> first
    {
      store.slot.None? || !Truthy(store.slot.value.config)
    }

    /** `async_download_and_validate_wiz_home`: unlike the store's own download, an empty URL
        is requested too. */
    method DownloadAndValidateWizHome(url: string, fetch: string -> HttpOutcome, decode: string -> Option<Json>, now: Timestamp)
      returns (ok: bool)
      modifies store
      ensures ok <==> FetchRecord(url, fetch, decode, now).Some?
      ensures store.slot == if ok then FetchRecord(url, fetch, decode, now) else old(store.slot)
      ensures store.requests == old(store.requests) + [url]
    {
      store.requests := store.requests + [url];
      var reply := fetch(url);
      if reply.ClientError? || reply.status != 200 {
        return false;
      }
      var config := decode(reply.text);
      if config.None? {
        return false;
      }
      store.slot := Some(StoredData(Url(url), config.value, now));
      return true;
    }

    /** `async_validate_and_connect_bulb`, filling the errors dict. */
    method ValidateAndConnectBulb(host: string, isIp: string -> bool, bulb: BulbOracle) returns (v: Validation)
      modifies this
      ensures v == FlowValidation(host, isIp, bulb)
      ensures probes == if host != "" && isIp(host) then old(probes) + [host] else old(probes)
      ensures discoveredDevice == old(discoveredDevice) && uniqueId == old(uniqueId)
    {
      var errors: map<string, string> := map[];
      if host == "" {
        errors := errors[CONF_HOST := "host_required"];
      } else if !isIp(host) {
        errors := errors[CONF_HOST := "no_ip"];
      } else {
        probes := probes + [host];
        var outcome := Probe(bulb, host);
        if outcome.Answer? {
          return Validation(Some(outcome.value.0), outcome.value.1, map[]);
        }
        errors := errors[BASE := FlowBaseError(outcome.error)];
      }
      return Validation(None, None, errors);
    }

    /** `async_create_bulb_entry`, with the home config the store holds for the title. */
    method CreateBulbEntry(defaultName: string, host: string, bt: BulbType, mac: string) returns (r: FlowResult)
      modifies this, registry
      ensures CreateBulbEntryOutcome(defaultName, old(registry.entries), host, TypeObject(bt), mac, store.LoadConfig())
        == Ok((r, registry.entries))
      ensures uniqueId == Some(mac)
      ensures discoveredDevice == old(discoveredDevice) && probes == old(probes)
      ensures registry.titleUpdates == old(registry.titleUpdates)
    {
      var link := HomeLinkFromEntries(CurrentEntries(registry.entries));
      uniqueId := Some(mac);
      var configured := ConfiguredIndex(registry.entries, mac);
      if configured.Some? {
        registry.UpdateHost(configured.value, host);
        return Abort("already_configured");
      }
      var data := EntryData(host, link);
      var title := FullBulbName(defaultName, bt, mac, store.LoadConfig());
      registry.Add(ConfigEntry(Some(mac), data, title, false));
      return CreateEntry(title, data);
    }

    /** `async_step_dhcp` */
    method StepDhcp(defaultName: string, ip: string, mac: string, onboarded: bool, isIp: string -> bool, bulb: BulbOracle)
      returns (r: FlowResult)
      modifies this, registry
      ensures discoveredDevice == Some(DiscoveredBulb(ip, mac))
      ensures HandledDiscovery(defaultName, old(registry.entries), DiscoveredBulb(ip, mac), onboarded, isIp, bulb,
                               store.LoadConfig(), r, registry.entries)
    {
      discoveredDevice := Some(DiscoveredBulb(ip, mac));
      r := HandleDiscovery(defaultName, onboarded, isIp, bulb);
    }

    /** `async_step_integration_discovery`: the discovery info must hold `ip_address` and
        `mac_address`. */
    method StepIntegrationDiscovery(defaultName: string, info: map<string, string>, onboarded: bool,
                                    isIp: string -> bool, bulb: BulbOracle)
      returns (r: Result<FlowResult, PyError>)
      modifies this, registry
      ensures "ip_address" !in info ==> r == Err(KeyError("ip_address")) && unchanged(this, registry)
      ensures "ip_address" in info && "mac_address" !in info ==> r == Err(KeyError("mac_address")) && unchanged(this, registry)
      ensures r.Ok? ==>
        && "ip_address" in info && "mac_address" in info
        && discoveredDevice == Some(DiscoveredBulb(info["ip_address"], info["mac_address"]))
        && HandledDiscovery(defaultName, old(registry.entries), discoveredDevice.value, onboarded, isIp, bulb,
                            store.LoadConfig(), r.value, registry.entries)
    {
      if "ip_address" !in info {
        return Err(KeyError("ip_address"));
      }
      if "mac_address" !in info {
        return Err(KeyError("mac_address"));
      }
      discoveredDevice := Some(DiscoveredBulb(info["ip_address"], info["mac_address"]));
      var result := HandleDiscovery(defaultName, onboarded, isIp, bulb);
      return Ok(result);
    }

    /** `_async_handle_discovery`: a MAC already configured aborts before any bulb is
        contacted, after updating that entry's host to the discovered IP. */
    method HandleDiscovery(defaultName: string, onboarded: bool, isIp: string -> bool, bulb: BulbOracle)
      returns (r: FlowResult)
      requires discoveredDevice.Some?
      modifies this, registry
      ensures discoveredDevice == old(discoveredDevice)
      ensures HandledDiscovery(defaultName, old(registry.entries), discoveredDevice.value, onboarded, isIp, bulb,
                               store.LoadConfig(), r, registry.entries)
      ensures ConfiguredIndex(old(registry.entries), discoveredDevice.value.macAddress).Some? ==> probes == old(probes)
    {
      var device := discoveredDevice.value;
      uniqueId := Some(device.macAddress);
      var configured := ConfiguredIndex(registry.entries, device.macAddress);
      if configured.Some? {
        registry.UpdateHost(configured.value, device.ipAddress);
        return Abort("already_configured");
      }
      r := DiscoveryConfirm(defaultName, false, onboarded, isIp, bulb);
    }

    /** `async_step_discovery_confirm`. With input, or before onboarding, the discovered bulb
        is validated and an entry is created or the flow aborts; otherwise the confirmation
        form is shown. */
    method DiscoveryConfirm(defaultName: string, hasInput: bool, onboarded: bool, isIp: string -> bool, bulb: BulbOracle)
      returns (r: FlowResult)
      modifies this, registry
      ensures discoveredDevice == old(discoveredDevice)
      ensures old(discoveredDevice).None? ==>
        r == Abort("no_device_found") && registry.entries == old(registry.entries) && probes == old(probes)
      ensures old(discoveredDevice).Some? && !hasInput && onboarded ==>
        r == ShowForm("discovery_confirm", map[], false) && registry.entries == old(registry.entries) && probes == old(probes)
      ensures old(discoveredDevice).Some? && (hasInput || !onboarded) ==>
        Confirmed(defaultName, old(registry.entries), discoveredDevice.value.ipAddress, isIp, bulb, store.LoadConfig(),
                  r, registry.entries)
    {
      if discoveredDevice.None? {
        return Abort("no_device_found");
      }
      if hasInput || !onboarded {
        var ip := discoveredDevice.value.ipAddress;
        var v := ValidateAndConnectBulb(ip, isIp, bulb);
        if v.errors == map[] && v.bulbType.Some? && v.mac.Some? {
          r := CreateBulbEntry(defaultName, ip, v.bulbType.value, v.mac.value);
          return;
        }
        return Abort("cannot_connect");
      }
      return ShowForm("discovery_confirm", map[], false);
    }

    /** `async_step_user`. On a first setup the home link must carry the allowed prefix and
        download; a link without the prefix is refused before any download. Any error
        re-shows the form without contacting the bulb; the form offers the link field
        exactly on a first setup. */
    method StepUser(defaultName: string, input: Option<UserInput>, isIp: string -> bool, bulb: BulbOracle,
                    fetch: string -> HttpOutcome, decode: string -> Option<Json>, now: Timestamp)
      returns (r: FlowResult)
      modifies this, registry, store
      ensures r.ShowForm? ==> r.stepId == "user" && r.hasLinkField == old(IsFirstSetup())
      ensures r.CreateEntry? || r.ShowForm? || r == Abort("already_configured")
      ensures input.None? ==>
        r == ShowForm("user", map[], old(IsFirstSetup())) && unchanged(registry, store) && probes == old(probes)
      ensures input.Some? && !old(IsFirstSetup()) ==> unchanged(store)
      ensures input.Some? && old(IsFirstSetup()) && !ValidateHomeLink(input.value.link.GetOr("")) ==>
        && r == ShowForm("user", map[BASE := "invalid_link"], true)
        && unchanged(registry, store) && probes == old(probes)
      ensures input.Some? && old(IsFirstSetup()) && ValidateHomeLink(input.value.link.GetOr("")) ==>
        var link := input.value.link.GetOr("");
        && store.requests == old(store.requests) + [link]
        && store.slot == (if FetchRecord(link, fetch, decode, now).Some? then FetchRecord(link, fetch, decode, now) else old(store.slot))
        && (FetchRecord(link, fetch, decode, now).None? ==>
              r == ShowForm("user", map[BASE := "invalid_link"], true) && unchanged(registry) && probes == old(probes))
      ensures input.Some? && (!old(IsFirstSetup()) ||
                              (ValidateHomeLink(input.value.link.GetOr("")) &&
                               FetchRecord(input.value.link.GetOr(""), fetch, decode, now).Some?)) ==>
        var host := input.value.host.GetOr("");
        var v := FlowValidation(host, isIp, bulb);
        && probes == (if host != "" && isIp(host) then old(probes) + [host] else old(probes))
        && (if v.bulbType.Some? && v.mac.Some? then
              CreateBulbEntryOutcome(defaultName, old(registry.entries), host, TypeObject(v.bulbType.value), v.mac.value,
                                     store.LoadConfig()) == Ok((r, registry.entries))
            else r == ShowForm("user", v.errors, old(IsFirstSetup())) && registry.entries == old(registry.entries))
      ensures r.CreateEntry? || r == Abort("already_configured") ==>
        input.Some? && ValidatedEntry(defaultName, old(registry.entries), input.value.host.GetOr(""), isIp, bulb,
                                      store.LoadConfig(), r, registry.entries)
    {
      var errors: map<string, string> := map[];
      var firstSetup := IsFirstSetup();
      if input.Some? {
        var host := input.value.host.GetOr("");
        if firstSetup {
          var link := input.value.link.GetOr("");
          if !ValidateHomeLink(link) {
            errors := errors[BASE := "invalid_link"];
            assert BASE in errors;
          } else {
            var ok := DownloadAndValidateWizHome(link, fetch, decode, now);
            if !ok {
              errors := errors[BASE := "invalid_link"];
              assert BASE in errors;
            }
          }
        }
        if errors == map[] {
          var v := ValidateAndConnectBulb(host, isIp, bulb);
          errors := errors + v.errors;
          if errors == map[] && v.bulbType.Some? && v.mac.Some? {
            r := CreateBulbEntry(defaultName, host, v.bulbType.value, v.mac.value);
            return;
          }
        }
      }
      return ShowForm("user", errors, firstSetup);
    }
  }

  /** The discovery outcome: a configured MAC aborts with the host updated to the
      discovered IP; otherwise the confirmation step runs without input. */
  ghost predicate HandledDiscovery(defaultName: string, before: seq<ConfigEntry>, device: DiscoveredBulb, onboarded: bool,
                                   isIp: string -> bool, bulb: BulbOracle, config: Json, r: FlowResult, after: seq<ConfigEntry>)
  {
    match ConfiguredIndex(before, device.macAddress)
    case Some(i) => r == Abort("already_configured") && after == WithHost(before, i, device.ipAddress)
    case None =>
      if onboarded then r == ShowForm("discovery_confirm", map[], false) && after == before
      else Confirmed(defaultName, before, device.ipAddress, isIp, bulb, config, r, after)
  }

  /** The confirmation outcome for the bulb at `ip`: never the form again; an entry step,
      titled from the home config `config`, for a bulb that answers with a MAC,
      `cannot_connect` otherwise. */
  ghost predicate Confirmed(defaultName: string, before: seq<ConfigEntry>, ip: string, isIp: string -> bool,
                            bulb: BulbOracle, config: Json, r: FlowResult, after: seq<ConfigEntry>)
  {
    var v := FlowValidation(ip, isIp, bulb);
    if v.bulbType.Some? && v.mac.Some? then
      CreateBulbEntryOutcome(defaultName, before, ip, TypeObject(v.bulbType.value), v.mac.value, config) == Ok((r, after))
    else r == Abort("cannot_connect") && after == before
  }

  /** A user-form entry step: the host validated with a MAC, and the entry step run on it. */
  ghost predicate ValidatedEntry(defaultName: string, before: seq<ConfigEntry>, host: string, isIp: string -> bool,
                                 bulb: BulbOracle, config: Json, r: FlowResult, after: seq<ConfigEntry>)
  {
    var v := FlowValidation(host, isIp, bulb);
    v.bulbType.Some? && v.mac.Some? &&
    CreateBulbEntryOutcome(defaultName, before, host, TypeObject(v.bulbType.value), v.mac.value, config) == Ok((r, after))
  }
}
