/** `utils/config_flow_helpers.py`: bulb validation, the home link carried between config
    entries, the list of discovered bulbs offered to the user, the data of a new entry,
    the home-link check, and the rename pass over existing entries. The entry registry of
    the framework is the `EntryRegistry` class. */
module FlowHelpers {
  import opened Wrappers
  import opened Text
  import opened Json
  import opened Bulb
  import opened Naming

  const CONF_HOST: string := "host"
  const BASE: string := "base"
  /** `WIZ_HOME_LINK`, the entry-data key of the home link. */
  const WIZ_HOME_LINK: string := "WiZ app link"
  /** The only accepted start of a home link. */
  const LINK_PREFIX: string := "https://wiz-s3-local-integration-dev-artifacts"

  /** A config entry: its unique id (the MAC, `None` when unset), its data, its title, and
      whether the user ignored it. */
  datatype ConfigEntry = ConfigEntry(uniqueId: Option<string>, data: map<string, string>, title: string, ignored: bool)

  /** A `DiscoveredBulb`. */
  datatype DiscoveredBulb = DiscoveredBulb(ipAddress: string, macAddress: string)

  /** What validating a host gives: the bulb type and MAC when the bulb answered (`getMac`
      may answer `None`), and the errors dict of the form. */
  datatype Validation = Validation(bulbType: Option<BulbType>, mac: Option<string>, errors: map<string, string>)

  /** Both queries `async_validate_and_connect_bulb` makes, in order: the first failure
      stops it. */
  function Probe(bulb: BulbOracle, host: string): (q: Query<(BulbType, Option<string>)>)
    ensures bulb.queryType(host).Fail? ==> q == Fail(bulb.queryType(host).error)
    ensures bulb.queryType(host).Answer? && bulb.queryMac(host).Fail? ==> q == Fail(bulb.queryMac(host).error)
    ensures q.Answer? <==> bulb.queryType(host).Answer? && bulb.queryMac(host).Answer?
  {
    match bulb.queryType(host)
    case Fail(e) => Fail(e)
    case Answer(bt) =>
      match bulb.queryMac(host)
      case Fail(e) => Fail(e)
      case Answer(mac) => Answer((bt, mac))
  }

  /** The `base` error the helper reports for a bulb exception; `None` for the exceptions it
      lets propagate. */
  function HelperBaseError(e: BulbError): (r: Option<string>)
    ensures r == Some("cannot_connect") <==> e == ConnectionError || e == OsError
    ensures r == Some("bulb_time_out") <==> e == TimeOutError
    ensures r.None? <==> e == NotKnownBulb || e == OtherError
  {
    match e
    case ConnectionError => Some("cannot_connect")
    case OsError => Some("cannot_connect")
    case TimeOutError => Some("bulb_time_out")
    case _ => None
  }

  /** `async_validate_and_connect_bulb` of the helpers module. The bulb is contacted only for a
      non-empty host that is an IP address. */
  method ValidateAndConnectBulb(host: string, isIp: string -> bool, bulb: BulbOracle)
    returns (r: Result<Validation, BulbError>, ghost contacted: bool)
    ensures contacted <==> host != "" && isIp(host)
    ensures host == "" ==> r == Ok(Validation(None, None, map[CONF_HOST := "host_required"]))
    ensures host != "" && !isIp(host) ==> r == Ok(Validation(None, None, map[CONF_HOST := "no_ip"]))
    ensures contacted && Probe(bulb, host).Answer? ==>
      r == Ok(Validation(Some(Probe(bulb, host).value.0), Probe(bulb, host).value.1, map[]))
    ensures contacted && Probe(bulb, host).Fail? ==>
      var e := Probe(bulb, host).error;
      if HelperBaseError(e).Some? then r == Ok(Validation(None, None, map[BASE := HelperBaseError(e).value]))
      else r == Err(e)
    ensures r.Ok? ==> (r.value.errors == map[] <==> r.value.bulbType.Some?)
  {
    var errors: map<string, string> := map[];
    contacted := false;
    if host == "" {
      errors := errors[CONF_HOST := "host_required"];
    } else if !isIp(host) {
      errors := errors[CONF_HOST := "no_ip"];
    } else {
      contacted := true;
      var bulbType := bulb.queryType(host);
      var mac: Query<Option<string>>;
      if bulbType.Answer? {
        mac := bulb.queryMac(host);
      }
      var failure := if bulbType.Fail? then bulbType.error else if mac.Fail? then mac.error else OtherError;
      if bulbType.Answer? && mac.Answer? {
        return Ok(Validation(Some(bulbType.value), mac.value, map[])), contacted;
      } else if failure == ConnectionError {
        errors := errors[BASE := "cannot_connect"];
      } else if failure == TimeOutError {
        errors := errors[BASE := "bulb_time_out"];
      } else if failure == OsError {
        errors := errors[BASE := "cannot_connect"];
      } else {
        return Err(failure), contacted;
      }
    }
    assert CONF_HOST in errors || BASE in errors;
    return Ok(Validation(None, None, errors)), contacted;
  }

  /** Entry `i` is the first entry whose data has the home-link key. */
  predicate FirstLinkAt(entries: seq<ConfigEntry>, i: int) {
    0 <= i < |entries| && WIZ_HOME_LINK in entries[i].data &&
    forall j :: 0 <= j < i ==> WIZ_HOME_LINK !in entries[j].data
  }

  /** `get_wiz_home_link_from_entries`: the link of the first entry holding one. */
  function HomeLinkFromEntries(entries: seq<ConfigEntry>): (r: Option<string>)
    ensures r.None? <==> forall i :: 0 <= i < |entries| ==> WIZ_HOME_LINK !in entries[i].data
    ensures r.Some? ==> exists i :: FirstLinkAt(entries, i) && r.value == entries[i].data[WIZ_HOME_LINK]
  {
    if entries == [] then None
    else if WIZ_HOME_LINK in entries[0].data then
      assert FirstLinkAt(entries, 0);
      Some(entries[0].data[WIZ_HOME_LINK])
    else
      var r := HomeLinkFromEntries(entries[1..]);
      assert forall i :: 1 <= i < |entries| ==> entries[i] == entries[1..][i - 1];
      if r.Some? then
        var i :| FirstLinkAt(entries[1..], i) && r.value == entries[1..][i].data[WIZ_HOME_LINK];
        assert FirstLinkAt(entries, i + 1);
        r
      else r
  }

  /** The label of a discovered bulb: `"<DEFAULT_NAME> <short mac> (<ip>)"`. */
  function DeviceLabel(defaultName: string, mac: string, ip: string): string {
    defaultName + " " + ShortMac(mac) + (" (" + ip + ")")
  }

  /** `format_discovered_devices`: the bulbs neither registered by MAC nor by IP, labelled. */
  function FormatDiscoveredDevices(defaultName: string, discovered: map<string, DiscoveredBulb>,
                                   uniqueIds: set<string>, hosts: set<string>): (r: map<string, string>)
    ensures forall mac :: mac in r <==>
      mac in discovered && mac !in uniqueIds && discovered[mac].ipAddress !in hosts
    ensures forall mac :: mac in r ==> r[mac] == DeviceLabel(defaultName, mac, discovered[mac].ipAddress)
    ensures r.Keys <= discovered.Keys
  {
    map mac | mac in discovered && mac !in uniqueIds && discovered[mac].ipAddress !in hosts ::
      DeviceLabel(defaultName, mac, discovered[mac].ipAddress)
  }

  /** A label begins with the default name and ends with the IP in parentheses. */
  lemma DeviceLabelShape(defaultName: string, mac: string, ip: string)
    ensures var l := DeviceLabel(defaultName, mac, ip);
      && StartsWith(l, defaultName + " ")
      && |l| >= |ip| + 3 && l[|l| - |ip| - 3..] == " (" + ip + ")"
  {
    PrefixAndSuffix(defaultName + " ", ShortMac(mac), " (" + ip + ")");
  }

  /** The data of a new entry: the host, and the home link when it is truthy. */
  function EntryData(host: string, link: Option<string>): (d: map<string, string>)
    ensures CONF_HOST in d && d[CONF_HOST] == host
    ensures WIZ_HOME_LINK in d <==> link.Some? && link.value != ""
    ensures WIZ_HOME_LINK in d ==> d[WIZ_HOME_LINK] == link.value
    ensures d.Keys <= {CONF_HOST, WIZ_HOME_LINK}
  {
    var d := map[CONF_HOST := host];
    if link.Some? && link.value != "" then d[WIZ_HOME_LINK := link.value] else d
  }

  /** `async_create_bulb_entry_data`: the title and the data of a new entry. */
  function CreateBulbEntryData(defaultName: string, host: string, bt: BulbType, mac: string,
                               link: Option<string>, config: Json): (r: (string, map<string, string>))
    ensures r.0 == FullBulbName(defaultName, bt, mac, config)
    ensures r.1 == EntryData(host, link)
  {
    (FullBulbName(defaultName, bt, mac, config), EntryData(host, link))
  }

  /** `validate_wiz_home_link` */
  function ValidateHomeLink(link: string): (ok: bool)
    ensures ok <==> |LINK_PREFIX| <= |link| && link[..|LINK_PREFIX|] == LINK_PREFIX
  {
    StartsWith(link, LINK_PREFIX)
  }

  /** The registry of config entries of the integration, with a log of the entries whose
      title was updated. */
  class EntryRegistry {
    var entries: seq<ConfigEntry>
    ghost var titleUpdates: seq<nat>

    constructor (entries: seq<ConfigEntry>)
      ensures this.entries == entries && titleUpdates == []
    {
      this.entries := entries;
      titleUpdates := [];
    }

    /** `async_update_entry(entry, title=title)` */
    method UpdateTitle(i: nat, title: string)
      requires i < |entries|
      modifies this
      ensures entries == old(entries)[i := old(entries)[i].(title := title)]
      ensures titleUpdates == old(titleUpdates) + [i]
    {
      entries := entries[i := entries[i].(title := title)];
      titleUpdates := titleUpdates + [i];
    }

    /** `async_update_entry(entry, data={**entry.data, host: host})` */
    method UpdateHost(i: nat, host: string)
      requires i < |entries|
      modifies this
      ensures entries == old(entries)[i := old(entries)[i].(data := old(entries)[i].data[CONF_HOST := host])]
      ensures titleUpdates == old(titleUpdates)
    {
      entries := entries[i := entries[i].(data := entries[i].data[CONF_HOST := host])];
    }

    /** A new entry from a finished flow. */
    method Add(entry: ConfigEntry)
      modifies this
      ensures entries == old(entries) + [entry] && titleUpdates == old(titleUpdates)
    {
      entries := entries + [entry];
    }
  }

  /** `_async_current_entries(include_ignore=False)`: the entries not ignored, in order. */
  function CurrentEntries(entries: seq<ConfigEntry>): (r: seq<ConfigEntry>)
    ensures |r| <= |entries|
    ensures forall e :: e in r <==> e in entries && !e.ignored
  {
    if entries == [] then []
    else if entries[0].ignored then CurrentEntries(entries[1..])
    else [entries[0]] + CurrentEntries(entries[1..])
  }

  /** Filtering keeps the order: the current entries of two runs of entries are those of the
      first run followed by those of the second. */
  lemma {:induction false} CurrentEntriesAppend(a: seq<ConfigEntry>, b: seq<ConfigEntry>)
    ensures CurrentEntries(a + b) == CurrentEntries(a) + CurrentEntries(b)
  {
    if a == [] {
      assert a + b == b;
    } else {
      assert (a + b)[0] == a[0] && (a + b)[1..] == a[1..] + b;
      CurrentEntriesAppend(a[1..], b);
    }
  }

  /** Entry `i` is the first entry not ignored whose data has the home-link key. */
  predicate FirstCurrentLinkAt(entries: seq<ConfigEntry>, i: int) {
    0 <= i < |entries| && !entries[i].ignored && WIZ_HOME_LINK in entries[i].data &&
    forall j :: 0 <= j < i ==> entries[j].ignored || WIZ_HOME_LINK !in entries[j].data
  }

  /** The link the flows read from the current entries is the link of the first entry that
      is not ignored and holds one; ignored entries never provide it. */
  lemma {:induction false} CurrentHomeLink(entries: seq<ConfigEntry>)
    ensures var r := HomeLinkFromEntries(CurrentEntries(entries));
      && (r.None? <==> forall i :: 0 <= i < |entries| && !entries[i].ignored ==> WIZ_HOME_LINK !in entries[i].data)
      && (r.Some? ==> exists i :: FirstCurrentLinkAt(entries, i) && r.value == entries[i].data[WIZ_HOME_LINK])
  {
    if entries != [] {
      var rest := entries[1..];
      CurrentHomeLink(rest);
      CurrentHomeLinkStep(entries);
      var r := HomeLinkFromEntries(CurrentEntries(entries));
      if !entries[0].ignored && WIZ_HOME_LINK in entries[0].data {
        assert FirstCurrentLinkAt(entries, 0);
      } else {
        assert forall i :: 1 <= i < |entries| ==> entries[i] == rest[i - 1];
        if r.Some? {
          var i :| FirstCurrentLinkAt(rest, i) && r.value == rest[i].data[WIZ_HOME_LINK];
          assert FirstCurrentLinkAt(entries, i + 1);
        }
      }
    }
  }

  /** One entry of the search: a current entry with a link decides it, any other entry is
      passed over. */
  lemma CurrentHomeLinkStep(entries: seq<ConfigEntry>)
    requires entries != []
    ensures HomeLinkFromEntries(CurrentEntries(entries)) ==
      if !entries[0].ignored && WIZ_HOME_LINK in entries[0].data then Some(entries[0].data[WIZ_HOME_LINK])
      else HomeLinkFromEntries(CurrentEntries(entries[1..]))
  {
    if !entries[0].ignored {
      var c := CurrentEntries(entries[1..]);
      assert CurrentEntries(entries) == [entries[0]] + c;
      assert ([entries[0]] + c)[1..] == c;
    }
  }

  /** `build_full_bulb_name` for a bulb type and a MAC, once the home config is read. */
  type Namer = (BulbType, string) -> string

  function TitleNamer(defaultName: string, config: Json): Namer {
    (bt, mac) => FullBulbName(defaultName, bt, mac, config)
  }

  /** The title the rename pass gives an entry, `None` when it leaves the entry alone: an
      ignored entry, one that already has a home link, one without a host, one whose bulb
      does not answer, one without a unique id (naming it raises, and every exception is
      skipped), and one whose title is already right. */
  function NewTitle(naming: Namer, e: ConfigEntry, bulb: BulbOracle): (t: Option<string>)
    ensures e.ignored || WIZ_HOME_LINK in e.data ==> t.None?
    ensures CONF_HOST !in e.data || e.data[CONF_HOST] == "" ==> t.None?
    ensures t.Some? ==>
      && t.value != e.title && e.uniqueId.Some? && bulb.queryType(e.data[CONF_HOST]).Answer?
      && t.value == naming(bulb.queryType(e.data[CONF_HOST]).value, e.uniqueId.value)
    ensures (&& !e.ignored && WIZ_HOME_LINK !in e.data && CONF_HOST in e.data && e.data[CONF_HOST] != ""
             && bulb.queryType(e.data[CONF_HOST]).Answer? && e.uniqueId.Some?) ==>
      var title := naming(bulb.queryType(e.data[CONF_HOST]).value, e.uniqueId.value);
      t == if title != e.title then Some(title) else None
  {
    if e.ignored || WIZ_HOME_LINK in e.data then None
    else if CONF_HOST !in e.data || e.data[CONF_HOST] == "" then None
    else match bulb.queryType(e.data[CONF_HOST])
      case Fail(_) => None
      case Answer(bt) =>
        if e.uniqueId.None? then None
        else
          var title := naming(bt, e.uniqueId.value);
          if title != e.title then Some(title) else None
  }

  /** An entry after the rename pass. */
  function Renamed(naming: Namer, e: ConfigEntry, bulb: BulbOracle): ConfigEntry {
    match NewTitle(naming, e, bulb)
    case None => e
    case Some(t) => e.(title := t)
  }

  /** The positions at and after `from` whose title the pass updates, in order. */
  function RenamedPositions(naming: Namer, entries: seq<ConfigEntry>, bulb: BulbOracle, from: nat)
    : (r: seq<nat>)
    requires from <= |entries|
    decreases |entries| - from
    ensures forall k :: 0 <= k < |r| ==> from <= r[k] < |entries| && NewTitle(naming, entries[r[k]], bulb).Some?
    ensures forall i :: from <= i < |entries| && NewTitle(naming, entries[i], bulb).Some? ==> i in r
    ensures forall a, b :: 0 <= a < b < |r| ==> r[a] < r[b]
  {
    if from == |entries| then []
    else
      var rest := RenamedPositions(naming, entries, bulb, from + 1);
      if NewTitle(naming, entries[from], bulb).Some? then [from] + rest else rest
  }

  /** Logging position `i` when it is renamed, and then the later positions, logs the
      positions from `i` on. */
  lemma LogStep(log: seq<nat>, naming: Namer, entries: seq<ConfigEntry>, bulb: BulbOracle, i: nat)
    requires i < |entries|
    ensures (if NewTitle(naming, entries[i], bulb).Some? then log + [i] else log) +
      RenamedPositions(naming, entries, bulb, i + 1) == log + RenamedPositions(naming, entries, bulb, i)
  {
    var rest := RenamedPositions(naming, entries, bulb, i + 1);
    assert log + [i] + rest == log + ([i] + rest);
  }

  /** `async_update_existing_device_names`: every entry is renamed on its own, so one
      entry's failure leaves the others' renaming as it would be. */
  method UpdateExistingDeviceNames(naming: Namer, registry: EntryRegistry, bulb: BulbOracle)
    modifies registry
    ensures |registry.entries| == |old(registry.entries)|
    ensures forall i :: 0 <= i < |registry.entries| ==>
      registry.entries[i] == Renamed(naming, old(registry.entries)[i], bulb)
    ensures registry.titleUpdates ==
      old(registry.titleUpdates) + RenamedPositions(naming, old(registry.entries), bulb, 0)
  {
    ghost var original := registry.entries;
    var i := 0;
    while i < |registry.entries|
      invariant 0 <= i <= |registry.entries| == |original|
      invariant forall k :: 0 <= k < i ==> registry.entries[k] == Renamed(naming, original[k], bulb)
      invariant forall k :: i <= k < |original| ==> registry.entries[k] == original[k]
      invariant registry.titleUpdates + RenamedPositions(naming, original, bulb, i) ==
        old(registry.titleUpdates) + RenamedPositions(naming, original, bulb, 0)
    {
      var entry := registry.entries[i];
      var title := NewTitle(naming, entry, bulb);
      LogStep(registry.titleUpdates, naming, original, bulb, i);
      if title.Some? {
        registry.UpdateTitle(i, title.value);
      }
      i := i + 1;
    }
  }

  /** With `build_full_bulb_name` as the namer, the rename pass changes nothing but the
      title, and a new title is the full bulb name of the entry's bulb type and unique id:
      the base name, or a title ending with the bracketed base name. */
  lemma RenamedTitleIsFullName(defaultName: string, config: Json, e: ConfigEntry, bulb: BulbOracle)
    ensures var r := Renamed(TitleNamer(defaultName, config), e, bulb);
      && r == e.(title := r.title)
      && (r.title != e.title ==>
            && CONF_HOST in e.data && e.uniqueId.Some? && bulb.queryType(e.data[CONF_HOST]).Answer?
            && var bt := bulb.queryType(e.data[CONF_HOST]).value;
               var b := BaseName(defaultName, bt, e.uniqueId.value);
               && r.title == FullBulbName(defaultName, bt, e.uniqueId.value, config)
               && (r.title == b || (|r.title| >= |b| + 3 && r.title[|r.title| - |b| - 3..] == " [" + b + "]")))
  {
    var t := NewTitle(TitleNamer(defaultName, config), e, bulb);
    if t.Some? {
      var bt := bulb.queryType(e.data[CONF_HOST]).value;
      assert t.value == FullBulbName(defaultName, bt, e.uniqueId.value, config);
      TitleEndsWithBase(defaultName, bt, e.uniqueId.value, config);
    }
  }

  /** An entry that already has a home link, or has no host, is left exactly as it was. */
  lemma RenameSkipsLinkedOrHostless(naming: Namer, e: ConfigEntry, bulb: BulbOracle)
    requires WIZ_HOME_LINK in e.data || CONF_HOST !in e.data || e.data[CONF_HOST] == ""
    ensures Renamed(naming, e, bulb) == e
  {
  }
}
