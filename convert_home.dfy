/** `convert_home.py` (present twice, identically, as `custom_components/wiz/convert_home.py`
    and `wiz/convert_home.py`): the `from_dict` constructors and `WiZHome.parse_json`.
    Dataclass fields are not type-checked by Python, so each field holds the decoded value
    as found. */
module ConvertHome {
  import opened Wrappers
  import opened Json

  datatype DeviceTraits = DeviceTraits(
    isDimmable: Json,
    isTunableWhite: Json,
    whiteRange: seq<Json>,
    isTunableColor: Json,
    supportsLightMode: Json)

  /** `group_id` is `JNull` (None) when the key is absent. */
  datatype Device = Device(
    deviceId: Json,
    deviceType: Json,
    roomId: Json,
    groupId: Json,
    name: Json,
    macAddress: Json,
    fwVersion: Json,
    traits: DeviceTraits,
    creationDate: Json,
    updateDate: Json)

  datatype Room = Room(roomId: Json, name: Json, roomType: Json, creationDate: Json, updateDate: Json)

  datatype WiZHome = WiZHome(
    name: Json,
    homeId: Json,
    region: Json,
    udpSigningKey: Json,
    version: Json,
    creationDate: Json,
    updateDate: Json,
    rooms: seq<Room>,
    devices: seq<Device>)

  const DEVICE_KEYS: seq<string> :=
    ["device_id", "type", "room_id", "name", "mac_address", "fw_version", "traits", "creation_date", "update_date"]
  const ROOM_KEYS: seq<string> := ["room_id", "name", "type", "creation_date", "update_date"]
  const HOME_KEYS: seq<string> :=
    ["name", "home_id", "region", "udp_signing_key", "version", "creation_date", "update_date"]

  /** `data` is a dict holding every key of `keys`. */
  predicate HasAll(data: Json, keys: seq<string>) {
    forall k :: k in keys ==> HasKey(data, k)
  }

  /** `data[k]` where it succeeds (`JNull` elsewhere). */
  function At(data: Json, k: string): Json {
    if HasKey(data, k) then Lookup(data.fields, k).value else JNull
  }

  /** `DeviceTraits.from_dict`: every flag defaults to False and `white_range` to `[]`;
      `list(...)` of the range copies a list and fails on a value that is not iterable. */
  function TraitsFromDict(data: Json): (r: Result<DeviceTraits, PyError>)
    ensures r.Ok? <==> IsDict(data) && Elements(Get(data, "white_range", JArr([])).value).Ok?
    ensures !IsDict(data) ==> r == Err(AttributeError)
    ensures r.Ok? ==>
      && r.value.isDimmable == Get(data, "is_dimmable", JBool(false)).value
      && r.value.isTunableWhite == Get(data, "is_tunable_white", JBool(false)).value
      && r.value.whiteRange == Elements(Get(data, "white_range", JArr([])).value).value
      && r.value.isTunableColor == Get(data, "is_tunable_color", JBool(false)).value
      && r.value.supportsLightMode == Get(data, "supports_light_mode", JBool(false)).value
  {
    if !IsDict(data) then Err(AttributeError)
    else match Elements(Get(data, "white_range", JArr([])).value)
      case Err(e) => Err(e)
      case Ok(whiteRange) =>
        Ok(DeviceTraits(
          Get(data, "is_dimmable", JBool(false)).value,
          Get(data, "is_tunable_white", JBool(false)).value,
          whiteRange,
          Get(data, "is_tunable_color", JBool(false)).value,
          Get(data, "supports_light_mode", JBool(false)).value))
  }

  /** An absent flag reads False and an absent range reads `[]`. */
  lemma TraitDefaults(data: Json)
    requires IsDict(data)
    requires forall k :: k in ["is_dimmable", "is_tunable_white", "white_range", "is_tunable_color", "supports_light_mode"] ==>
      Lookup(data.fields, k).None?
    ensures TraitsFromDict(data) == Ok(DeviceTraits(JBool(false), JBool(false), [], JBool(false), JBool(false)))
  {
  }

  /** `data[keys[i]]` is the first subscript of `keys` that fails. */
  predicate FirstFailing(data: Json, keys: seq<string>, i: int) {
    0 <= i < |keys| && Subscript(data, keys[i]).Err? && forall j :: 0 <= j < i ==> Subscript(data, keys[j]).Ok?
  }

  /** `data[k]` for each key of `keys` in turn: the values, or the exception of the first
      subscript that fails. */
  function RequireAll(data: Json, keys: seq<string>): (r: Result<seq<Json>, PyError>)
    ensures r.Ok? <==> HasAll(data, keys)
    ensures r.Ok? ==> |r.value| == |keys| && forall i :: 0 <= i < |keys| ==> r.value[i] == At(data, keys[i])
    ensures !IsDict(data) && keys != [] ==> r == Err(TypeError)
    ensures r.Err? ==> exists i :: FirstFailing(data, keys, i) && Subscript(data, keys[i]) == Err(r.error)
  {
    if keys == [] then Ok([])
    else match Subscript(data, keys[0])
      case Err(e) =>
        assert keys[0] in keys && !HasKey(data, keys[0]);
        assert FirstFailing(data, keys, 0);
        Err(e)
      case Ok(v) =>
        match RequireAll(data, keys[1..])
        case Err(e) =>
          var i :| FirstFailing(data, keys[1..], i) && Subscript(data, keys[1..][i]) == Err(e);
          assert FirstFailing(data, keys, i + 1);
          Err(e)
        case Ok(vs) =>
          assert forall k :: k in keys ==> k == keys[0] || k in keys[1..];
          Ok([v] + vs)
  }

  /** `Device.from_dict` */
  function DeviceFromDict(data: Json): (r: Result<Device, PyError>)
    ensures r.Ok? <==> HasAll(data, DEVICE_KEYS) && TraitsFromDict(At(data, "traits")).Ok?
    ensures !IsDict(data) ==> r == Err(TypeError)
    ensures r.Ok? ==>
      && r.value.deviceId == At(data, "device_id")
      && r.value.deviceType == At(data, "type")
      && r.value.roomId == At(data, "room_id")
      && r.value.groupId == Get(data, "group_id", JNull).value
      && r.value.name == At(data, "name")
      && r.value.macAddress == At(data, "mac_address")
      && r.value.fwVersion == At(data, "fw_version")
      && r.value.traits == TraitsFromDict(At(data, "traits")).value
      && r.value.creationDate == At(data, "creation_date")
      && r.value.updateDate == At(data, "update_date")
  {
    var first :- RequireAll(data, DEVICE_KEYS[..7]);
    var traits :- TraitsFromDict(first[6]);
    var last :- RequireAll(data, DEVICE_KEYS[7..]);
    assert forall k :: k in DEVICE_KEYS ==> k in DEVICE_KEYS[..7] || k in DEVICE_KEYS[7..];
    Ok(Device(first[0], first[1], first[2], Get(data, "group_id", JNull).value, first[3], first[4], first[5],
              traits, last[0], last[1]))
  }

  /** `Room.from_dict` */
  function RoomFromDict(data: Json): (r: Result<Room, PyError>)
    ensures r.Ok? <==> HasAll(data, ROOM_KEYS)
    ensures !IsDict(data) ==> r == Err(TypeError)
    ensures r.Ok? ==> r.value == Room(At(data, "room_id"), At(data, "name"), At(data, "type"),
                                      At(data, "creation_date"), At(data, "update_date"))
  {
    var v :- RequireAll(data, ROOM_KEYS);
    Ok(Room(v[0], v[1], v[2], v[3], v[4]))
  }

  /** Item `i` is the first item `f` raises on. */
  predicate FirstErrorAt<T>(items: seq<Json>, f: Json -> Result<T, PyError>, i: int) {
    0 <= i < |items| && f(items[i]).Err? && forall j :: 0 <= j < i ==> f(items[j]).Ok?
  }

  /** A list comprehension `[f(x) for x in items]`: one result per item, in order; the first
      failing item's exception propagates. */
  function MapAll<T>(items: seq<Json>, f: Json -> Result<T, PyError>): (r: Result<seq<T>, PyError>)
    ensures r.Ok? <==> forall i :: 0 <= i < |items| ==> f(items[i]).Ok?
    ensures r.Ok? ==> |r.value| == |items| && forall i :: 0 <= i < |items| ==> r.value[i] == f(items[i]).value
    ensures r.Err? ==> exists i :: FirstErrorAt(items, f, i) && f(items[i]) == Err(r.error)
  {
    if items == [] then Ok([])
    else match f(items[0])
      case Err(e) => Err(e)
      case Ok(first) =>
        assert forall i :: 1 <= i < |items| ==> items[i] == items[1..][i - 1];
        match MapAll(items[1..], f)
        case Err(e) =>
          var i :| FirstErrorAt(items[1..], f, i) && f(items[1..][i]) == Err(e);
          assert FirstErrorAt(items, f, i + 1);
          Err(e)
        case Ok(rest) => Ok([first] + rest)
  }

  /** The items a comprehension over `data.get(key, [])` visits. */
  function ListAt(data: Json, key: string): Result<seq<Json>, PyError> {
    var v :- Get(data, key, JArr([]));
    Elements(v)
  }

  /** `WiZHome.parse_json` */
  function ParseJson(data: Json): (r: Result<WiZHome, PyError>)
    ensures r.Ok? <==>
      && HasAll(data, HOME_KEYS)
      && ListAt(data, "rooms").Ok? && MapAll(ListAt(data, "rooms").value, RoomFromDict).Ok?
      && ListAt(data, "devices").Ok? && MapAll(ListAt(data, "devices").value, DeviceFromDict).Ok?
    ensures !HasAll(data, HOME_KEYS) ==> r == Err(RequireAll(data, HOME_KEYS).error)
    ensures r.Ok? ==>
      && r.value.name == At(data, "name") && r.value.homeId == At(data, "home_id")
      && r.value.region == At(data, "region") && r.value.udpSigningKey == At(data, "udp_signing_key")
      && r.value.version == At(data, "version") && r.value.creationDate == At(data, "creation_date")
      && r.value.updateDate == At(data, "update_date")
    ensures r.Ok? ==> ListAt(data, "rooms").Ok? && MapAll(ListAt(data, "rooms").value, RoomFromDict) == Ok(r.value.rooms)
    ensures r.Ok? ==> ListAt(data, "devices").Ok? && MapAll(ListAt(data, "devices").value, DeviceFromDict) == Ok(r.value.devices)
  {
    var v :- RequireAll(data, HOME_KEYS);
    var roomItems :- ListAt(data, "rooms");
    var rooms :- MapAll(roomItems, RoomFromDict);
    var deviceItems :- ListAt(data, "devices");
    var devices :- MapAll(deviceItems, DeviceFromDict);
    Ok(WiZHome(v[0], v[1], v[2], v[3], v[4], v[5], v[6], rooms, devices))
  }

  /** Rooms keep the order and number of the document's `rooms` list, devices those of its
      `devices` list; an absent list gives no rooms or devices. */
  lemma ParseKeepsListOrder(data: Json)
    requires ParseJson(data).Ok?
    ensures var home := ParseJson(data).value;
      var roomItems := ListAt(data, "rooms").value;
      var deviceItems := ListAt(data, "devices").value;
      && |home.rooms| == |roomItems| && |home.devices| == |deviceItems|
      && (forall i :: 0 <= i < |roomItems| ==> Ok(home.rooms[i]) == RoomFromDict(roomItems[i]))
      && (forall i :: 0 <= i < |deviceItems| ==> Ok(home.devices[i]) == DeviceFromDict(deviceItems[i]))
      && (Lookup(data.fields, "rooms").None? ==> home.rooms == [])
      && (Lookup(data.fields, "devices").None? ==> home.devices == [])
  {
  }

  /** The MAC address and room id of a parsed device are the document's values, unchanged. */
  lemma DeviceFieldsVerbatim(data: Json, i: int)
    requires ParseJson(data).Ok?
    requires 0 <= i < |ParseJson(data).value.devices|
    ensures var item := ListAt(data, "devices").value[i];
      && HasAll(item, DEVICE_KEYS)
      && ParseJson(data).value.devices[i].macAddress == At(item, "mac_address")
      && ParseJson(data).value.devices[i].roomId == At(item, "room_id")
  {
    var item := ListAt(data, "devices").value[i];
    assert DeviceFromDict(item).Ok?;
  }
}
