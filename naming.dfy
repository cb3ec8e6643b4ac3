/** Bulb naming: the short MAC id, the description of a bulb class, the base name, and the
    full title enriched from a home-structure document. The same code appears in
    `utils/utils.py` (which reads the document from the config store) and in `utils.py`
    (which reads it from the storage directory); both read it into a `Json` value first. */
module Naming {
  import opened Wrappers
  import opened Text
  import opened Json
  import opened Bulb

  /** `DEFAULT_NAME` of the two integration variants. */
  const ALFA_DEFAULT_NAME: string := "WiZ alfa"
  const WIZ_DEFAULT_NAME: string := "WiZ"

  /** The MAC as `_short_mac` normalises it before cutting: colons removed, upper-cased. */
  function NormalMac(mac: string): string {
    Upper(RemoveColons(mac))
  }

  /** `_short_mac`: the last six characters of the normalised MAC (all of it when shorter). */
  function ShortMac(mac: string): (r: string)
    ensures |r| == if |NormalMac(mac)| < 6 then |NormalMac(mac)| else 6
    ensures r == NormalMac(mac)[|NormalMac(mac)| - |r|..]
  {
    LastN(NormalMac(mac), 6)
  }

  /** The short id holds no colon and no lower-case letter. */
  lemma ShortMacShape(mac: string)
    ensures ':' !in ShortMac(mac)
    ensures forall k :: 0 <= k < |ShortMac(mac)| ==> !('a' <= ShortMac(mac)[k] <= 'z')
  {
    LastNOfUpperShape(RemoveColons(mac), 6);
  }

  /** The short id does not depend on the letter case of the MAC. */
  lemma ShortMacCaseInsensitive(mac: string)
    ensures ShortMac(Lower(mac)) == ShortMac(mac)
    ensures ShortMac(Upper(mac)) == ShortMac(mac)
  {
    RemoveColonsOfLower(mac);
    UpperOfLower(RemoveColons(mac));
    RemoveColonsOfUpper(mac);
    UpperIdempotent(RemoveColons(mac));
  }

  lemma {:induction false} RemoveColonsOfUpper(s: string)
    ensures RemoveColons(Upper(s)) == Upper(RemoveColons(s))
  {
    if s != [] {
      RemoveColonsOfUpper(s[1..]);
      assert Upper(s) == [UpperChar(s[0])] + Upper(s[1..]);
      if s[0] != ':' {
        assert Upper(RemoveColons(s)) == [UpperChar(s[0])] + Upper(RemoveColons(s[1..]));
      }
    }
  }

  /** Inserting colons anywhere in the MAC does not change the short id. */
  lemma ShortMacColonInsensitive(a: string, b: string)
    ensures ShortMac(a + ":" + b) == ShortMac(a + b)
  {
    RemoveColonsAppend(a + ":", b);
    RemoveColonsAppend(a, ":");
    RemoveColonsAppend(a, b);
    assert RemoveColons(":") == [];
    assert RemoveColons(a + ":") == RemoveColons(a);
  }

  /** The description `name_from_bulb_type_and_mac` chooses for a bulb type. */
  function Description(bt: BulbType): (d: string)
    ensures bt.bulbClass == RGB && bt.whiteChannels == 2 <==> d == "RGBWW Tunable"
    ensures bt.bulbClass == RGB && bt.whiteChannels != 2 <==> d == "RGBW Tunable"
    ensures bt.bulbClass != RGB <==> d == "Random bulb lol"
  {
    if bt.bulbClass == RGB then
      if bt.whiteChannels == 2 then "RGBWW Tunable" else "RGBW Tunable"
    else "Random bulb lol"
  }

  /** `name_from_bulb_type_and_mac`: the base name of a bulb. */
  function BaseName(defaultName: string, bt: BulbType, mac: string): (r: string)
    ensures StartsWith(r, defaultName + " ")
    ensures |ShortMac(mac)| <= |r| && r[|r| - |ShortMac(mac)|..] == ShortMac(mac)
  {
    var head := defaultName + " ";
    var middle := Description(bt) + " ";
    PrefixAndSuffix(head, middle, ShortMac(mac));
    head + middle + ShortMac(mac)
  }

  /** The base name is the default name, a space, the description, a space and the short id. */
  lemma BaseNameParts(defaultName: string, bt: BulbType, mac: string)
    ensures var r := BaseName(defaultName, bt, mac);
      && |r| == |defaultName| + |Description(bt)| + 2 + |ShortMac(mac)|
      && r[|defaultName| + 1..|defaultName| + |Description(bt)| + 2] == Description(bt) + " "
  {
    PrefixAndSuffix(defaultName + " ", Description(bt) + " ", ShortMac(mac));
  }

  /** The answer of a per-element test in a first-match search: `Err` when the test raises. */
  type Test = Json -> Result<bool, PyError>

  /** A Python `for` loop that returns the first element passing `test`, `None` when none
      does, and propagates the first exception the test raises. */
  function FirstMatch(items: seq<Json>, test: Test): (r: Result<Option<Json>, PyError>)
    ensures forall i :: 0 <= i < |items| && (forall j :: 0 <= j < i ==> test(items[j]) == Ok(false)) ==>
      && (test(items[i]) == Ok(true) ==> r == Ok(Some(items[i])))
      && (test(items[i]).Err? ==> r == Err(test(items[i]).error))
    ensures r == Ok(None) <==> forall j :: 0 <= j < |items| ==> test(items[j]) == Ok(false)
    ensures r.Ok? && r.value.Some? ==> r.value.value in items && test(r.value.value) == Ok(true)
  {
    if items == [] then Ok(None)
    else match test(items[0])
      case Err(e) => Err(e)
      case Ok(true) => Ok(Some(items[0]))
      case Ok(false) =>
        var r := FirstMatch(items[1..], test);
        assert forall j :: 1 <= j < |items| ==> items[j] == items[1..][j - 1];
        r
  }

  /** The test of `_find_device_by_mac`:
      `device.get("mac_address", "").lower() == mac_address.lower()`. */
  function MacTest(mac: string): Test {
    d => match Get(d, "mac_address", JStr(""))
      case Err(e) => Err(e)
      case Ok(v) => if v.JStr? then Ok(Lower(v.s) == Lower(mac)) else Err(AttributeError)
  }

  /** The test of `_find_room_by_id`: `room.get("room_id") == room_id`. */
  function RoomIdTest(roomId: Json): Test {
    room => match Get(room, "room_id", JNull)
      case Err(e) => Err(e)
      case Ok(v) => Ok(PyEq(v, roomId))
  }

  /** The list under `key` of a config dict, as the search loops iterate it. */
  function ListOf(config: Json, key: string): Result<seq<Json>, PyError> {
    var v :- Get(config, key, JArr([]));
    Elements(v)
  }

  /** `_find_device_by_mac`: the first element of `devices` whose MAC matches. */
  function FindDeviceByMac(config: Json, mac: string): (r: Result<Option<Json>, PyError>)
    ensures !IsDict(config) ==> r == Err(AttributeError)
    ensures ListOf(config, "devices").Err? ==> r == Err(ListOf(config, "devices").error)
    ensures ListOf(config, "devices").Ok? ==> r == FirstMatch(ListOf(config, "devices").value, MacTest(mac))
    ensures r.Ok? && r.value.Some? ==>
      ListOf(config, "devices").Ok? && r.value.value in ListOf(config, "devices").value &&
      MacTest(mac)(r.value.value) == Ok(true)
  {
    var devices :- ListOf(config, "devices");
    FirstMatch(devices, MacTest(mac))
  }

  /** `_find_room_by_id`: the first element of `rooms` with the given `room_id`. */
  function FindRoomById(config: Json, roomId: Json): (r: Result<Option<Json>, PyError>)
    ensures !IsDict(config) ==> r == Err(AttributeError)
    ensures ListOf(config, "rooms").Err? ==> r == Err(ListOf(config, "rooms").error)
    ensures ListOf(config, "rooms").Ok? ==> r == FirstMatch(ListOf(config, "rooms").value, RoomIdTest(roomId))
    ensures r.Ok? && r.value.Some? ==>
      ListOf(config, "rooms").Ok? && r.value.value in ListOf(config, "rooms").value &&
      RoomIdTest(roomId)(r.value.value) == Ok(true)
  {
    var rooms :- ListOf(config, "rooms");
    FirstMatch(rooms, RoomIdTest(roomId))
  }

  /** `get_device_and_room_name_by_mac` once the config has been loaded: the device name and
      the room name, `JNull` standing for `None`. Every exception is caught and gives
      `(None, None)`. */
  function DeviceAndRoomNames(config: Json, mac: string): (r: (Json, Json))
    ensures !Truthy(config) ==> r == (JNull, JNull)
    ensures FindDeviceByMac(config, mac).Err? || FindDeviceByMac(config, mac) == Ok(None) ==>
      r == (JNull, JNull)
    ensures r != (JNull, JNull) ==>
      Truthy(config) && FindDeviceByMac(config, mac).Ok? && FindDeviceByMac(config, mac).value.Some? &&
      Get(FindDeviceByMac(config, mac).value.value, "name", JNull) == Ok(r.0)
  {
    if !Truthy(config) then (JNull, JNull)
    else match FindDeviceByMac(config, mac)
      case Err(_) => (JNull, JNull)
      case Ok(None) => (JNull, JNull)
      case Ok(Some(device)) =>
        if !Truthy(device) then (JNull, JNull)
        else
          var name := Get(device, "name", JNull).value;
          var roomId := Get(device, "room_id", JNull).value;
          if !Truthy(roomId) then (name, JNull)
          else match FindRoomById(config, roomId)
            case Err(_) => (JNull, JNull)
            case Ok(None) => (name, JNull)
            case Ok(Some(room)) =>
              if Truthy(room) then (name, Get(room, "name", JNull).value) else (name, JNull)
  }

  /** The title `build_full_bulb_name` composes from the names found. */
  function ComposeTitle(deviceName: Json, roomName: Json, base: string): string {
    if !Truthy(deviceName) then base
    else if Truthy(roomName) then Str(deviceName) + " (" + Str(roomName) + ")" + (" [" + base + "]")
    else Str(deviceName) + (" [" + base + "]")
  }

  /** `build_full_bulb_name` for a loaded config (`JNull` when there is none). */
  function FullBulbName(defaultName: string, bt: BulbType, mac: string, config: Json): (r: string)
    ensures var (d, room) := DeviceAndRoomNames(config, mac);
      && (!Truthy(d) ==> r == BaseName(defaultName, bt, mac))
      && (Truthy(d) && Truthy(room) ==>
            r == Str(d) + " (" + Str(room) + ")" + (" [" + BaseName(defaultName, bt, mac) + "]"))
      && (Truthy(d) && !Truthy(room) ==> r == Str(d) + (" [" + BaseName(defaultName, bt, mac) + "]"))
  {
    var (d, room) := DeviceAndRoomNames(config, mac);
    ComposeTitle(d, room, BaseName(defaultName, bt, mac))
  }

  /** Without a home config, or when the MAC is not in it, the title is the base name. */
  lemma TitleWithoutDocumentIsBase(defaultName: string, bt: BulbType, mac: string, config: Json)
    requires !Truthy(config) || FindDeviceByMac(config, mac) == Ok(None)
    ensures FullBulbName(defaultName, bt, mac, config) == BaseName(defaultName, bt, mac)
  {
  }

  /** Whatever the document says, the title ends with the base name (bracketed when a device
      name was found). */
  lemma TitleEndsWithBase(defaultName: string, bt: BulbType, mac: string, config: Json)
    ensures var r := FullBulbName(defaultName, bt, mac, config);
      var b := BaseName(defaultName, bt, mac);
      r == b || (|r| >= |b| + 3 && r[|r| - |b| - 3..] == " [" + b + "]")
  {
    var names := DeviceAndRoomNames(config, mac);
    ComposeEndsWithBase(names.0, names.1, BaseName(defaultName, bt, mac));
  }

  lemma ComposeEndsWithBase(d: Json, room: Json, b: string)
    ensures var r := ComposeTitle(d, room, b);
      r == b || (|r| >= |b| + 3 && r[|r| - |b| - 3..] == " [" + b + "]")
  {
    if Truthy(d) {
      var head := if Truthy(room) then Str(d) + " (" + Str(room) + ")" else Str(d);
      Split(head, " [" + b + "]");
    }
  }

  /** A device whose `room_id` is falsy (absent, `0`, `null`) gets no room name, whatever the
      rooms list holds; the device name is kept. */
  lemma NoRoomWithoutRoomId(config: Json, mac: string, device: Json)
    requires Truthy(config) && FindDeviceByMac(config, mac) == Ok(Some(device)) && Truthy(device)
    requires !Truthy(Get(device, "room_id", JNull).value)
    ensures DeviceAndRoomNames(config, mac) == (Get(device, "name", JNull).value, JNull)
  {
  }

  /** A truthy `room_id` that no room has gives no room name, and is not an error. */
  lemma UnresolvedRoomIsNoRoom(config: Json, mac: string, device: Json)
    requires Truthy(config) && FindDeviceByMac(config, mac) == Ok(Some(device)) && Truthy(device)
    requires Truthy(Get(device, "room_id", JNull).value)
    requires ListOf(config, "rooms").Ok?
    requires forall k :: 0 <= k < |ListOf(config, "rooms").value| ==>
      RoomIdTest(Get(device, "room_id", JNull).value)(ListOf(config, "rooms").value[k]) == Ok(false)
    ensures DeviceAndRoomNames(config, mac) == (Get(device, "name", JNull).value, JNull)
  {
    var roomId := Get(device, "room_id", JNull).value;
    assert FirstMatch(ListOf(config, "rooms").value, RoomIdTest(roomId)) == Ok(None);
    assert FindRoomById(config, roomId) == Ok(None);
  }

  /** A device with a truthy `room_id` that names a truthy room gets both names. */
  lemma FoundRoomIsNamed(config: Json, mac: string, device: Json, room: Json)
    requires Truthy(config) && FindDeviceByMac(config, mac) == Ok(Some(device)) && Truthy(device)
    requires Truthy(Get(device, "room_id", JNull).value)
    requires FindRoomById(config, Get(device, "room_id", JNull).value) == Ok(Some(room)) && Truthy(room)
    ensures DeviceAndRoomNames(config, mac) == (Get(device, "name", JNull).value, Get(room, "name", JNull).value)
  {
  }

  /** An exception raised while searching the rooms is caught and drops the device name too. */
  lemma RoomSearchErrorHidesNames(config: Json, mac: string, device: Json)
    requires Truthy(config) && FindDeviceByMac(config, mac) == Ok(Some(device)) && Truthy(device)
    requires Truthy(Get(device, "room_id", JNull).value)
    requires FindRoomById(config, Get(device, "room_id", JNull).value).Err?
    ensures DeviceAndRoomNames(config, mac) == (JNull, JNull)
  {
  }

  /** The device search ignores the letter case of both MACs. */
  lemma DeviceSearchCaseInsensitive(config: Json, mac: string)
    ensures FindDeviceByMac(config, Upper(mac)) == FindDeviceByMac(config, mac)
  {
    LowerOfUpper(mac);
    assert MacTest(Upper(mac)) == MacTest(mac);
  }
}
