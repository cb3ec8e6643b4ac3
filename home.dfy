/** `pywizlight/home.py`: a WiZ home (`wizhome`) that fetches its home-structure text from
    a file or a URL, parses it, and indexes its rooms, devices and groups in dicts. File
    reads, the HTTP GET and the JSON decoder are inputs. */
module Home {
  import opened Wrappers
  import opened Json
  import opened Storage

  const DEFAULT_HOME_STRUCTURE_FILEPATH: string := "home_structure.json"

  /** A Python dict with arbitrary hashable keys, as pairs in insertion order. Keys are
      compared with Python `==`, so `1` and `True` are the same key. */
  type PyDict = seq<(Json, Json)>

  lemma PyEqSymmetric(a: Json, b: Json)
    ensures PyEq(a, b) == PyEq(b, a)
  {
  }

  lemma PyEqTransitive(a: Json, b: Json, c: Json)
    requires PyEq(a, b) && PyEq(b, c)
    ensures PyEq(a, c)
  {
  }

  /** `d.get(k)` */
  function DictGet(d: PyDict, k: Json): Option<Json> {
    if d == [] then None
    else if PyEq(d[0].0, k) then Some(d[0].1)
    else DictGet(d[1..], k)
  }

  /** `d.update({k: v})`: an existing equal key keeps its place (and its original key
      object) and gets the new value; a new key is appended. */
  function DictSet(d: PyDict, k: Json, v: Json): (r: PyDict)
    ensures |r| == |d| || |r| == |d| + 1
  {
    if d == [] then [(k, v)]
    else if PyEq(d[0].0, k) then [(d[0].0, v)] + d[1..]
    else [d[0]] + DictSet(d[1..], k, v)
  }

  /** After `d.update({k: v})`, a key equal to `k` reads `v` and every other key reads what
      it read before. */
  lemma {:induction false} DictGetSet(d: PyDict, k: Json, v: Json, q: Json)
    ensures DictGet(DictSet(d, k, v), q) == if PyEq(k, q) then Some(v) else DictGet(d, q)
  {
    if d != [] {
      if PyEq(d[0].0, k) {
        if PyEq(k, q) {
          PyEqTransitive(d[0].0, k, q);
        } else if PyEq(d[0].0, q) {
          PyEqSymmetric(d[0].0, k);
          PyEqTransitive(k, d[0].0, q);
        }
        assert ([(d[0].0, v)] + d[1..])[1..] == d[1..];
      } else {
        var rest := DictSet(d[1..], k, v);
        assert ([d[0]] + rest)[1..] == rest;
        DictGetSet(d[1..], k, v, q);
        if PyEq(k, q) && PyEq(d[0].0, q) {
          PyEqSymmetric(k, q);
          PyEqTransitive(d[0].0, q, k);
        }
      }
    }
  }

  /** The key `item[key]` of a list element matches `k`. */
  predicate KeyMatches(item: Json, key: string, k: Json) {
    Subscript(item, key).Ok? && PyEq(Subscript(item, key).value, k)
  }

  /** Element `i` is the last element keyed `k`. */
  predicate LastMatchAt(items: seq<Json>, key: string, k: Json, i: int) {
    0 <= i < |items| && KeyMatches(items[i], key, k) &&
    forall j :: i < j < |items| ==> !KeyMatches(items[j], key, k)
  }

  /** The element a dict keyed by `item[key]` keeps for `k`: the last one keyed `k`. */
  function LastKeyed(items: seq<Json>, key: string, k: Json): (r: Option<Json>)
    ensures r.Some? ==> exists i :: LastMatchAt(items, key, k, i) && r.value == items[i]
    ensures r.None? ==> forall i :: 0 <= i < |items| ==> !KeyMatches(items[i], key, k)
  {
    if items == [] then None
    else
      var later := LastKeyed(items[1..], key, k);
      assert forall j :: 1 <= j < |items| ==> items[j] == items[1..][j - 1];
      if later.Some? then
        var i :| LastMatchAt(items[1..], key, k, i) && later.value == items[1..][i];
        assert LastMatchAt(items, key, k, i + 1);
        later
      else if KeyMatches(items[0], key, k) then
        assert LastMatchAt(items, key, k, 0);
        Some(items[0])
      else None
  }

  /** A dict being filled by a `for` loop, and the exception that stopped the loop, if any. */
  datatype Fill = Fill(dict: PyDict, error: Option<PyError>)

  /** `for item in items: d.update({item[key]: item})` starting from `d`. A failing
      subscript raises; an unhashable key raises `TypeError`. */
  function Index(d: PyDict, items: seq<Json>, key: string): (r: Fill)
    decreases |items|
    ensures r.error.None? <==> forall i :: 0 <= i < |items| ==>
      Subscript(items[i], key).Ok? && Hashable(Subscript(items[i], key).value)
  {
    if items == [] then Fill(d, None)
    else
      assert forall j :: 1 <= j < |items| ==> items[j] == items[1..][j - 1];
      match Subscript(items[0], key)
      case Err(e) => Fill(d, Some(e))
      case Ok(k) =>
        if !Hashable(k) then Fill(d, Some(TypeError))
        else Index(DictSet(d, k, items[0]), items[1..], key)
  }

  /** After a loop that raised nothing, each key reads the last element carrying it, and a
      key no element carries reads what it read before. */
  lemma {:induction false} IndexLastWins(d: PyDict, items: seq<Json>, key: string, k: Json)
    requires Index(d, items, key).error.None?
    decreases |items|
    ensures DictGet(Index(d, items, key).dict, k) ==
      if LastKeyed(items, key, k).Some? then LastKeyed(items, key, k) else DictGet(d, k)
  {
    if items != [] {
      var k0 := Subscript(items[0], key).value;
      var d1 := DictSet(d, k0, items[0]);
      IndexLastWins(d1, items[1..], key, k);
      DictGetSet(d, k0, items[0], k);
    }
  }

  /** The elements `for x in hd.get(listKey, {})` visits, as a dict built from them. */
  function IndexList(hd: Json, listKey: string, key: string): (r: Fill)
    requires IsDict(hd)
    ensures Lookup(hd.fields, listKey).None? ==> r == Fill([], None)
    ensures Elements(Get(hd, listKey, JObj([])).value).Err? ==> r == Fill([], Some(TypeError))
    ensures Elements(Get(hd, listKey, JObj([])).value).Ok? ==>
      r == Index([], Elements(Get(hd, listKey, JObj([])).value).value, key)
  {
    match Elements(Get(hd, listKey, JObj([])).value)
    case Err(e) => Fill([], Some(e))
    case Ok(items) => Index([], items, key)
  }

  /** The fields `parseJSON` assigns. */
  datatype Parsed = Parsed(
    homeId: Json,
    name: Json,
    creationDate: Json,
    updateDate: Json,
    udpSigningKey: Json,
    rooms: PyDict,
    devices: PyDict,
    groups: PyDict)

  /** The fields after `parseJSON`, and the exception it raised, if any. Assignments made
      before the exception stay made. */
  datatype Outcome = Outcome(state: Parsed, error: Option<PyError>)

  /** The body of the `try` of `parseJSON` once the document `hd` is decoded. */
  function ParseDocument(s: Parsed, hd: Json): (r: Outcome)
    ensures !IsDict(hd) ==> r == Outcome(s, Some(TypeError))
    ensures r.error.None? <==> Parsable(hd)
    ensures r.error.None? ==>
      && r.state.homeId == Lookup(hd.fields, "home_id").value
      && r.state.name == Lookup(hd.fields, "name").value
      && r.state.creationDate == Lookup(hd.fields, "creation_date").value
      && r.state.updateDate == Lookup(hd.fields, "update_date").value
      && r.state.udpSigningKey == Lookup(hd.fields, "udp_signing_key").value
      && Index([], RoomItems(hd), "room_id") == Fill(r.state.rooms, None)
      && Index([], DeviceItems(hd), "mac_address") == Fill(r.state.devices, None)
      && Index([], GroupItems(hd), "group_id") == Fill(r.state.groups, None)
    ensures IsDict(hd) && Lookup(hd.fields, "home_id").None? ==> r == Outcome(s, Some(KeyError("home_id")))
  {
    var head := CopyDetails(s, hd);
    if head.error.Some? then head else FillMaps(head.state, hd)
  }

  /** A document `parseJSON` reads without raising: a dict holding the five detail keys,
      whose three lists are iterable and whose every element has its key, hashable. */
  predicate Parsable(hd: Json) {
    && HasDetails(hd)
    && Elements(Get(hd, "rooms", JObj([])).value).Ok? && Index([], RoomItems(hd), "room_id").error.None?
    && Elements(Get(hd, "devices", JObj([])).value).Ok? && Index([], DeviceItems(hd), "mac_address").error.None?
    && Elements(Get(hd, "groups", JObj([])).value).Ok? && Index([], GroupItems(hd), "group_id").error.None?
  }

  predicate HasDetails(hd: Json) {
    && HasKey(hd, "home_id") && HasKey(hd, "name") && HasKey(hd, "creation_date")
    && HasKey(hd, "update_date") && HasKey(hd, "udp_signing_key")
  }

  /** The five `hd[...]` assignments, in order. */
  function CopyDetails(s: Parsed, hd: Json): (r: Outcome)
    ensures r.state.rooms == s.rooms && r.state.devices == s.devices && r.state.groups == s.groups
    ensures r.error.None? <==> HasDetails(hd)
  {
    match Subscript(hd, "home_id")
    case Err(e) => Outcome(s, Some(e))
    case Ok(homeId) =>
      var s := s.(homeId := homeId);
      match Subscript(hd, "name")
      case Err(e) => Outcome(s, Some(e))
      case Ok(name) =>
        var s := s.(name := name);
        match Subscript(hd, "creation_date")
        case Err(e) => Outcome(s, Some(e))
        case Ok(creationDate) =>
          var s := s.(creationDate := creationDate);
          match Subscript(hd, "update_date")
          case Err(e) => Outcome(s, Some(e))
          case Ok(updateDate) =>
            var s := s.(updateDate := updateDate);
            match Subscript(hd, "udp_signing_key")
            case Err(e) => Outcome(s, Some(e))
            case Ok(key) => Outcome(s.(udpSigningKey := key), None)
  }

  /** The three loops: each map is emptied and then filled from its list. */
  function FillMaps(s: Parsed, hd: Json): (r: Outcome)
    requires IsDict(hd)
    ensures r.state.(rooms := [], devices := [], groups := []) == s.(rooms := [], devices := [], groups := [])
    ensures r.error.None? <==>
      && Elements(Get(hd, "rooms", JObj([])).value).Ok? && Index([], RoomItems(hd), "room_id").error.None?
      && Elements(Get(hd, "devices", JObj([])).value).Ok? && Index([], DeviceItems(hd), "mac_address").error.None?
      && Elements(Get(hd, "groups", JObj([])).value).Ok? && Index([], GroupItems(hd), "group_id").error.None?
  {
    var rooms := IndexList(hd, "rooms", "room_id");
    var s := s.(rooms := rooms.dict);
    if rooms.error.Some? then Outcome(s, rooms.error)
    else
      var devices := IndexList(hd, "devices", "mac_address");
      var s := s.(devices := devices.dict);
      if devices.error.Some? then Outcome(s, devices.error)
      else
        var groups := IndexList(hd, "groups", "group_id");
        Outcome(s.(groups := groups.dict), groups.error)
  }

  /** The list elements the three loops of a successful parse visit. */
  function RoomItems(hd: Json): seq<Json> {
    if IsDict(hd) && Elements(Get(hd, "rooms", JObj([])).value).Ok? then Elements(Get(hd, "rooms", JObj([])).value).value else []
  }

  function DeviceItems(hd: Json): seq<Json> {
    if IsDict(hd) && Elements(Get(hd, "devices", JObj([])).value).Ok? then Elements(Get(hd, "devices", JObj([])).value).value else []
  }

  function GroupItems(hd: Json): seq<Json> {
    if IsDict(hd) && Elements(Get(hd, "groups", JObj([])).value).Ok? then Elements(Get(hd, "groups", JObj([])).value).value else []
  }

  /** `parseJSON` on the fields `s` and the fetched text `jsonHome`: without content it
      raises `WizHomeParsingError` and changes nothing; a decoding error also becomes
      `WizHomeParsingError`; any other exception propagates as raised. */
  function ParseModel(s: Parsed, jsonHome: Option<string>, decode: string -> Option<Json>): (r: Outcome)
    ensures jsonHome.None? ==> r == Outcome(s, Some(HomeParsingError))
    ensures jsonHome.Some? && decode(jsonHome.value).None? ==> r == Outcome(s, Some(HomeParsingError))
    ensures jsonHome.Some? && decode(jsonHome.value).Some? ==> r == ParseDocument(s, decode(jsonHome.value).value)
  {
    if jsonHome.None? then Outcome(s, Some(HomeParsingError))
    else match decode(jsonHome.value)
      case None => Outcome(s, Some(HomeParsingError))
      case Some(hd) => ParseDocument(s, hd)
  }

  /** After a successful parse each map reads, for every key, the last list element with
      that key, and nothing for a key no element has. */
  lemma ParsedMapsLastWins(s: Parsed, hd: Json, k: Json)
    requires ParseDocument(s, hd).error.None?
    ensures var p := ParseDocument(s, hd).state;
      && DictGet(p.rooms, k) == LastKeyed(RoomItems(hd), "room_id", k)
      && DictGet(p.devices, k) == LastKeyed(DeviceItems(hd), "mac_address", k)
      && DictGet(p.groups, k) == LastKeyed(GroupItems(hd), "group_id", k)
  {
    IndexLastWins([], RoomItems(hd), "room_id", k);
    IndexLastWins([], DeviceItems(hd), "mac_address", k);
    IndexLastWins([], GroupItems(hd), "group_id", k);
  }

  /** A successful parse owes nothing to the fields it started from: all three maps are
      rebuilt from scratch. */
  lemma ReparseReplacesEverything(s1: Parsed, s2: Parsed, hd: Json)
    requires ParseDocument(s1, hd).error.None?
    ensures ParseDocument(s2, hd) == ParseDocument(s1, hd)
  {
  }

  /** A document without a `rooms`, `devices` or `groups` list gives an empty map for it. */
  lemma AbsentListsGiveEmptyMaps(s: Parsed, hd: Json)
    requires ParseDocument(s, hd).error.None?
    ensures Lookup(hd.fields, "rooms").None? ==> ParseDocument(s, hd).state.rooms == []
    ensures Lookup(hd.fields, "devices").None? ==> ParseDocument(s, hd).state.devices == []
    ensures Lookup(hd.fields, "groups").None? ==> ParseDocument(s, hd).state.groups == []
  {
  }

  /** `for x in items: d.update({x[key]: x})` from an empty dict: the dict filled so far and
      the exception that ended the loop. */
  method IndexItems(items: seq<Json>, key: string) returns (d: PyDict, error: Option<PyError>)
    ensures Fill(d, error) == Index([], items, key)
  {
    d := [];
    var i := 0;
    while i < |items|
      invariant 0 <= i <= |items|
      invariant Index(d, items[i..], key) == Index([], items, key)
    {
      assert items[i..][1..] == items[i + 1..];
      var k := Subscript(items[i], key);
      if k.Err? {
        return d, Some(k.error);
      }
      if !Hashable(k.value) {
        return d, Some(TypeError);
      }
      d := DictSet(d, k.value, items[i]);
      i := i + 1;
    }
    return d, None;
  }

  /** Where `fetchJSONContent` reads from. */
  datatype FetchSource = FromFile(path: string) | FromUrl(url: string) | FromDefaultFile | NoSource

  /** The source priority: the file name, then the URL, then the default file if it exists. */
  function SourceOf(fileName: Option<string>, cloudUrl: Option<string>, defaultExists: bool): (r: FetchSource)
    ensures r.FromFile? <==> fileName.Some?
    ensures r.FromUrl? <==> fileName.None? && cloudUrl.Some?
    ensures r.FromDefaultFile? <==> fileName.None? && cloudUrl.None? && defaultExists
    ensures r.NoSource? <==> fileName.None? && cloudUrl.None? && !defaultExists
    ensures r.FromFile? ==> r.path == fileName.value
    ensures r.FromUrl? ==> r.url == cloudUrl.value
  {
    if fileName.Some? then FromFile(fileName.value)
    else if cloudUrl.Some? then FromUrl(cloudUrl.value)
    else if defaultExists then FromDefaultFile
    else NoSource
  }

  /** `wizhome` */
  class WizHome {
    var homeId: Json
    var cloudUrl: Option<string>
    var fileName: Option<string>
    var jsonHome: Option<string>
    var rooms: PyDict
    var devices: PyDict
    var groups: PyDict
    var name: Json
    var creationDate: Json
    var updateDate: Json
    var udpSigningKey: Json

    /** `__init__`: no content yet, empty maps, the other details None. */
    constructor (homeId: Json, cloudUrl: Option<string>, fileName: Option<string>)
      ensures this.homeId == homeId && this.cloudUrl == cloudUrl && this.fileName == fileName
      ensures jsonHome == None
      ensures rooms == [] && devices == [] && groups == []
      ensures name == JNull && creationDate == JNull && updateDate == JNull && udpSigningKey == JNull
    {
      this.homeId := homeId;
      this.cloudUrl := cloudUrl;
      this.fileName := fileName;
      jsonHome := None;
      devices := [];
      groups := [];
      rooms := [];
      name := JNull;
      creationDate := JNull;
      updateDate := JNull;
      udpSigningKey := JNull;
    }

    /** The fields `parseJSON` assigns. */
    function Fields(): Parsed
      reads this
    {
      Parsed(homeId, name, creationDate, updateDate, udpSigningKey, rooms, devices, groups)
    }

    /** `fetchJSONContent`. `readFile` answers a file's text (`None`: it cannot be opened or
        read, an `OSError`), `httpGet` the GET of a URL, `defaultExists` whether the default
        file exists. The status code is returned; on the URL path the content is kept only
        for status 200. */
    method FetchJsonContent(readFile: string -> Option<string>, httpGet: string -> HttpOutcome, defaultExists: bool)
      returns (r: Result<int, PyError>)
      modifies this
      ensures Fields() == old(Fields()) && cloudUrl == old(cloudUrl) && fileName == old(fileName)
      ensures match SourceOf(fileName, cloudUrl, defaultExists)
        case FromFile(path) =>
          (if readFile(path).None? then r == Err(OSError) && jsonHome == old(jsonHome)
           else r == Ok(200) && jsonHome == readFile(path))
        case FromUrl(url) =>
          (if httpGet(url).ClientError? then r == Err(OSError) && jsonHome == old(jsonHome)
           else (r == Ok(httpGet(url).status) &&
                 jsonHome == (if httpGet(url).status == 200 then Some(httpGet(url).text) else old(jsonHome))))
        case FromDefaultFile =>
          (if readFile(DEFAULT_HOME_STRUCTURE_FILEPATH).None? then r == Err(OSError) && jsonHome == old(jsonHome)
           else r == Ok(200) && jsonHome == readFile(DEFAULT_HOME_STRUCTURE_FILEPATH))
        case NoSource => r == Err(HomeError) && jsonHome == old(jsonHome)
    {
      if fileName.Some? {
        var text := readFile(fileName.value);
        if text.None? {
          return Err(OSError);
        }
        jsonHome := text;
        return Ok(200);
      } else if cloudUrl.Some? {
        var response := httpGet(cloudUrl.value);
        if response.ClientError? {
          return Err(OSError);
        }
        if response.status == 200 {
          jsonHome := Some(response.text);
        }
        return Ok(response.status);
      } else if defaultExists {
        var text := readFile(DEFAULT_HOME_STRUCTURE_FILEPATH);
        if text.None? {
          return Err(OSError);
        }
        jsonHome := text;
        return Ok(200);
      } else {
        return Err(HomeError);
      }
    }

    /** `parseJSON`: answers the exception raised, if any. */
    method ParseJson(decode: string -> Option<Json>) returns (raised: Option<PyError>)
      modifies this
      ensures Outcome(Fields(), raised) == ParseModel(old(Fields()), old(jsonHome), decode)
      ensures jsonHome == old(jsonHome) && cloudUrl == old(cloudUrl) && fileName == old(fileName)
    {
      if jsonHome.None? {
        return Some(HomeParsingError);
      }
      var decoded := decode(jsonHome.value);
      if decoded.None? {
        return Some(HomeParsingError);
      }
      raised := CopyDetailsFrom(decoded.value);
      if raised.None? {
        raised := FillMapsFrom(decoded.value);
      }
    }

    /** The five assignments `self.homeID = hd["home_id"]` and so on. */
    method CopyDetailsFrom(hd: Json) returns (raised: Option<PyError>)
      modifies this
      ensures Outcome(Fields(), raised) == CopyDetails(old(Fields()), hd)
      ensures jsonHome == old(jsonHome) && cloudUrl == old(cloudUrl) && fileName == old(fileName)
    {
      var v := Subscript(hd, "home_id");
      if v.Err? {
        return Some(v.error);
      }
      homeId := v.value;
      v := Subscript(hd, "name");
      if v.Err? {
        return Some(v.error);
      }
      name := v.value;
      v := Subscript(hd, "creation_date");
      if v.Err? {
        return Some(v.error);
      }
      creationDate := v.value;
      v := Subscript(hd, "update_date");
      if v.Err? {
        return Some(v.error);
      }
      updateDate := v.value;
      v := Subscript(hd, "udp_signing_key");
      if v.Err? {
        return Some(v.error);
      }
      udpSigningKey := v.value;
      return None;
    }

    /** The three `for` loops filling `rooms`, `devices` and `groups`. */
    method FillMapsFrom(hd: Json) returns (raised: Option<PyError>)
      requires IsDict(hd)
      modifies this
      ensures Outcome(Fields(), raised) == FillMaps(old(Fields()), hd)
      ensures jsonHome == old(jsonHome) && cloudUrl == old(cloudUrl) && fileName == old(fileName)
    {
      rooms := [];
      var items := Elements(Get(hd, "rooms", JObj([])).value);
      if items.Err? {
        return Some(items.error);
      }
      rooms, raised := IndexItems(items.value, "room_id");
      if raised.Some? {
        return;
      }

      devices := [];
      items := Elements(Get(hd, "devices", JObj([])).value);
      if items.Err? {
        return Some(items.error);
      }
      devices, raised := IndexItems(items.value, "mac_address");
      if raised.Some? {
        return;
      }

      groups := [];
      items := Elements(Get(hd, "groups", JObj([])).value);
      if items.Err? {
        return Some(items.error);
      }
      groups, raised := IndexItems(items.value, "group_id");
    }

    /** `get_device_details`: `{}` before any content is loaded, otherwise the device stored
        under exactly the key `mac` (`None` when there is none). */
    function DeviceDetails(mac: string): (r: Json)
      reads this
      ensures jsonHome.None? ==> r == JObj([])
      ensures jsonHome.Some? && DictGet(devices, JStr(mac)).None? ==> r == JNull
      ensures jsonHome.Some? && DictGet(devices, JStr(mac)).Some? ==> r == DictGet(devices, JStr(mac)).value
    {
      if jsonHome.None? then JObj([])
      else match DictGet(devices, JStr(mac))
        case None => JNull
        case Some(device) => device
    }
  }
}
