# WiZ home integration — a verified model

This project models the decision logic of the WiZ lighting integration for Home Assistant.
That logic lets a user add a WiZ bulb through a config flow, names each bulb from an optional
"home structure" document, and reads that document.

The model covers these parts:

- **Bulb naming** (`Naming`):
  - the short MAC id;
  - the description of a bulb class;
  - the base name `"<DEFAULT_NAME> <description> <short id>"`;
  - the full title `"<device> (<room>) [<base>]"`, built from a case-insensitive device search and a room search in the home document.

  The same naming code exists twice: in `utils/utils.py`, which reads the document from the config store, and in `utils.py`. The scan of the storage directory in `utils.py` is modelled separately (`HomeConfigFiles`).
- **Home-config store** (`Storage`): one persisted slot. It supports download-and-save, load, has-config, URL, clear and local load. A failing path never writes.
- **Config flow** (`FlowHelpers`, `ConfigFlow`):
  - bulb validation to a typed error dictionary;
  - the home-link prefix check, which runs before any download;
  - de-duplication by unique id (the MAC);
  - carrying the home link over from an existing entry;
  - the DHCP and integration discovery steps and the discovery confirmation;
  - the user step;
  - the batch rename pass over existing entries.

  The flow works on an entry registry and the store, both modelled as classes it updates.
- **Home-document parsing**:
  - `wizhome` of `pywizlight/home.py` (`Home`): fetch-source priority, and `parseJSON` filling three dicts, where the last duplicate key wins;
  - the `from_dict` constructors of the two identical `convert_home.py` files (`ConvertHome`).
- **Custom effects** (`CustomEffect`): the effect manager's loading loop and its step building.

JSON is a datatype (`Json`). Python dicts are association lists that keep insertion order. `JNull` stands for `None`. A Python exception is a `PyError` value in a `Result`.

Everything outside the process is a function-typed parameter:
- the bulb's UDP answers;
- `is_ip_address`;
- onboarding;
- HTTP GETs;
- file reads;
- the JSON decoder.

Module `Wrappers` holds `Option` and `Result`. `Text` holds ASCII case mapping, colon removal and number formatting. `Bulb` holds the bulb client's types.

The model follows the code, with one exception: the discovery confirmation. As written, it hands `build_full_bulb_name` the text `str(bulbtype)` and raises (see "## Findings"). `ConfirmAsWritten` models that code. The discovery steps `StepDhcp`, `StepIntegrationDiscovery`, `HandleDiscovery` and `DiscoveryConfirm` run the corrected confirmation, which passes the bulb type.

Two points about what the code does:
- `ShortMac` is the last `min(6, n)` characters of the colon-stripped, upper-cased MAC, whatever the string.
- `config_flow.py` imports `build_full_bulb_name` from `.utils`. The repository holds both a `utils.py` module and a `utils/` package. The flow is modelled with the `utils/utils.py` variant, which reads the config from the same store `_is_first_setup` reads. Both variants fail the same way on the finding below.

## Model

| member | source | states |
|---|---|---|
| Naming.ShortMac | custom_components/wiz/utils/utils.py:20-22 | the short id is the last min(6, n) characters of the MAC with colons removed and upper-cased; the second naming module repeats it at custom_components/wiz/utils.py:23-25 |
| Naming.ShortMacShape | custom_components/wiz/utils/utils.py:20-22 | the short id holds no colon and no lower-case letter |
| Naming.ShortMacCaseInsensitive | custom_components/wiz/utils/utils.py:20-22 | the short id of a MAC equals the short id of its lower-case and of its upper-case form |
| Naming.ShortMacColonInsensitive | custom_components/wiz/utils/utils.py:20-22 | inserting a colon anywhere in a MAC leaves its short id unchanged |
| Naming.Description | custom_components/wiz/utils/utils.py:27-36 | "RGBWW Tunable" exactly for RGB with two white channels, "RGBW Tunable" exactly for other RGB, "Random bulb lol" exactly for every other class; the second naming module repeats it at custom_components/wiz/utils.py:30-39 |
| Naming.BaseName | custom_components/wiz/utils/utils.py:25-37 | the base name starts with the default name and a space and ends with the short id; the second naming module repeats it at custom_components/wiz/utils.py:28-40 |
| Naming.BaseNameParts | custom_components/wiz/utils/utils.py:27-37 | the base name is the default name, a space, the bulb description, a space and the short id: its length is their total and the slice between the prefix and the short id is the description and a space |
| Naming.FirstMatch | custom_components/wiz/utils/utils.py:106-109 | the first element passing the test is returned, None exactly when every element fails it, and the first exception a test raises propagates |
| Naming.FindDeviceByMac | custom_components/wiz/utils/utils.py:103-109 | the search is the first-match loop over the config's devices list with the case-insensitive MAC test, so it returns the first matching device, None exactly when the list is iterable and no device matches, and the exception of a device the test raises on; a config that is not a dict raises, as does a devices value that is not iterable; the second naming module repeats it at custom_components/wiz/utils.py:140-146 |
| Naming.FindRoomById | custom_components/wiz/utils/utils.py:112-118 | the search is the first-match loop over the config's rooms list with the room_id equality test: the first matching room, None exactly when the list is iterable and no room matches, and the exception a room or the list raises otherwise; the second naming module repeats it at custom_components/wiz/utils.py:149-155 |
| Naming.DeviceAndRoomNames | custom_components/wiz/utils/utils.py:65-100 | a missing config, a device search that raises or finds nothing give (None, None); whenever a name is returned it is the found device's name; the second naming module repeats it at custom_components/wiz/utils.py:68-103 |
| Naming.FoundRoomIsNamed | custom_components/wiz/utils/utils.py:85-96 | a truthy device with a truthy room_id whose room search finds a truthy room yields the device's name and the room's name |
| Naming.RoomSearchErrorHidesNames | custom_components/wiz/utils/utils.py:90-100 | an exception raised by the room search is caught and gives (None, None), dropping the device name already read |
| Naming.FullBulbName | custom_components/wiz/utils/utils.py:40-62 | without a device name the title is the base name; with one it is "<dev> (<room>) [<base>]" when a room name exists and "<dev> [<base>]" otherwise; the second naming module repeats it at custom_components/wiz/utils.py:43-65 |
| Naming.TitleWithoutDocumentIsBase | custom_components/wiz/utils/utils.py:47-51 | with no config, or no device with that MAC, the title equals the base name exactly |
| Naming.TitleEndsWithBase | custom_components/wiz/utils/utils.py:53-62 | every title is the base name or ends with " [<base>]" |
| Naming.NoRoomWithoutRoomId | custom_components/wiz/utils/utils.py:89-93 | a device with a falsy room_id gets no room name and keeps its device name; the second naming module repeats it at custom_components/wiz/utils.py:92-96 |
| Naming.UnresolvedRoomIsNoRoom | custom_components/wiz/utils/utils.py:89-93 | a truthy room_id that no room carries gives room None, not an error |
| Naming.DeviceSearchCaseInsensitive | custom_components/wiz/utils/utils.py:107 | searching with the upper-cased MAC finds what searching with the MAC finds |
| HomeConfigFiles.FileVerdict | custom_components/wiz/utils.py:116-131 | a file without the storage prefix is skipped; an unreadable one ends the search; one that fails to decode is skipped; otherwise data.config decides: a value that is not a dict along the way ends the search, a dict config is chosen and any other config is skipped; a file is chosen exactly when it has the prefix, reads, decodes and holds a dict config |
| HomeConfigFiles.StoredConfig | custom_components/wiz/utils.py:123 | the lookup raises exactly when the stored value or its data value is not a dict, and otherwise gives the data's config, None when absent |
| HomeConfigFiles.SelectedIsFirstQualifying | custom_components/wiz/utils.py:116-133 | the scan returns a config exactly when some file yields it and every earlier file is skipped |
| HomeConfigFiles.SkippedFileIsTransparent | custom_components/wiz/utils.py:117-131 | a file failing JSON decoding, or lacking the prefix, does not change the result of the scan |
| HomeConfigFiles.LoadHomeConfig | custom_components/wiz/utils.py:106-137 | a missing storage directory gives None; otherwise the loop returns the scan's selection, which is a dict |
| Storage.ConfigOf | custom_components/wiz/utils/storage.py:60-63 | the loaded config is the stored config, None when nothing is stored |
| Storage.UrlOf | custom_components/wiz/utils/storage.py:69-72 | a URL is reported exactly when the stored record came from a URL download |
| Storage.FetchRecord | custom_components/wiz/utils/storage.py:30-54 | a record is saved exactly on status 200 with decodable JSON, and it holds the URL, the decoded config and the time |
| Storage.DownloadRecord | custom_components/wiz/utils/storage.py:25-28 | an empty URL saves nothing; any other URL is downloaded |
| Storage.LocalRecord | custom_components/wiz/utils/storage.py:86-108 | a record is saved exactly when the file exists, reads and decodes, and it holds the file path instead of a URL |
| Storage.DownloadThenRead | custom_components/wiz/utils/storage.py:42-48 | after a successful download, loading answers the downloaded config and the URL accessor answers the URL |
| Storage.LocalLoadHasNoUrl | custom_components/wiz/utils/storage.py:94-100 | after a local load the URL accessor answers None and loading answers the file's config |
| Storage.HomeConfigStore.constructor | custom_components/wiz/utils/storage.py:20-23 | the store starts on the persisted slot and has requested nothing |
| Storage.HomeConfigStore.StoredDataValue | custom_components/wiz/utils/storage.py:56-58 | the stored data answers the same config and URL as the two accessors |
| Storage.HomeConfigStore.LoadConfig | custom_components/wiz/utils/storage.py:60-63 | loading answers the config of the current slot |
| Storage.HomeConfigStore.HasStoredConfig | custom_components/wiz/utils/storage.py:65-67 | has-config holds exactly when loading answers something other than None |
| Storage.HomeConfigStore.StoredConfigUrl | custom_components/wiz/utils/storage.py:69-72 | the URL accessor answers the URL of the current slot |
| Storage.HomeConfigStore.DownloadAndStoreConfig | custom_components/wiz/utils/storage.py:25-54 | it answers True exactly when a record is saved; a failure leaves the slot unchanged; an empty URL makes no request |
| Storage.HomeConfigStore.ClearConfig | custom_components/wiz/utils/storage.py:74-76 | after clearing, loading answers None and has-config is false |
| Storage.HomeConfigStore.LoadLocalConfigAndStore | custom_components/wiz/utils/storage.py:78-108 | it answers True exactly when a record is saved, makes no request, leaves the slot unchanged on failure, and afterwards no URL is reported |
| ConvertHome.TraitsFromDict | custom_components/wiz/convert_home.py:29-35 | each flag reads its key with default False and white_range is copied with default []; a value that is not a dict raises; the second copy at wiz/convert_home.py:29-35 is identical |
| ConvertHome.TraitDefaults | custom_components/wiz/convert_home.py:29-35 | a dict with none of the trait keys gives all flags False and an empty range |
| ConvertHome.RequireAll | custom_components/wiz/convert_home.py:64-75 | the subscripts succeed exactly when every key is present; otherwise the first missing key's exception is raised |
| ConvertHome.DeviceFromDict | custom_components/wiz/convert_home.py:64-75 | a device is built exactly when all nine required keys are present and its traits parse; each field is the document's value, and group_id defaults to None; the second copy at wiz/convert_home.py:64-75 is identical |
| ConvertHome.RoomFromDict | custom_components/wiz/convert_home.py:99-105 | a room is built exactly when all five keys are present, from their values; the second copy at wiz/convert_home.py:99-105 is identical |
| ConvertHome.MapAll | custom_components/wiz/convert_home.py:158-159 | the comprehension succeeds exactly when every item converts, keeps length and order, and otherwise raises the exception of the first item that fails |
| ConvertHome.ParseJson | custom_components/wiz/convert_home.py:150-159 | parsing succeeds exactly when the seven top-level keys are present, the rooms and devices lists are iterable and every room and device converts; a missing key raises the first subscript's error; a parsed home copies the seven fields and holds the converted rooms and devices lists; the second copy at wiz/convert_home.py:150-159 is identical |
| ConvertHome.ParseKeepsListOrder | custom_components/wiz/convert_home.py:158-159 | rooms and devices keep the number and order of the document's lists and are empty when a list is absent |
| ConvertHome.DeviceFieldsVerbatim | custom_components/wiz/convert_home.py:64-75 | a parsed device's MAC and room id are the document's values, unchanged |
| Home.DictSet | custom_components/wiz/pywizlight/home.py:83 | an update adds at most one key |
| Home.DictGetSet | custom_components/wiz/pywizlight/home.py:83 | after an update, an equal key reads the new value and every other key reads what it read before |
| Home.LastKeyed | custom_components/wiz/pywizlight/home.py:81-93 | the reference answer is the last element carrying the key, or none when no element carries it |
| Home.Index | custom_components/wiz/pywizlight/home.py:81-83 | the loop raises nothing exactly when every element has the key and the key is hashable |
| Home.IndexLastWins | custom_components/wiz/pywizlight/home.py:80-93 | after a loop that raised nothing, each key reads the last element carrying it |
| Home.IndexList | custom_components/wiz/pywizlight/home.py:81 | an absent list gives an empty dict; a value that is not iterable raises TypeError |
| Home.ParseDocument | custom_components/wiz/pywizlight/home.py:71-93 | the parse raises nothing exactly when the document is a dict with the five detail keys, its three lists are iterable and every element carries its key, hashable; a successful parse copies the five details and fills the three dicts from the lists; a missing home_id raises KeyError and a document that is not a dict raises TypeError |
| Home.CopyDetails | custom_components/wiz/pywizlight/home.py:75-79 | the five assignments leave the three dicts as they were, and raise nothing exactly when the document is a dict holding the five keys |
| Home.FillMaps | custom_components/wiz/pywizlight/home.py:80-93 | the three loops change only the three dicts, and raise nothing exactly when the three lists are iterable and every element carries its key, hashable |
| Home.ParseModel | custom_components/wiz/pywizlight/home.py:65-97 | without content the parser raises a parsing error before anything changes; undecodable content raises a parsing error too; the package test at custom_components/wiz/pywizlight_alfa/tests/test_home.py:33-36 expects exactly that raise |
| Home.ParsedMapsLastWins | custom_components/wiz/pywizlight/home.py:80-93 | after a successful parse, each dict reads, for every key, the last list element with that key |
| Home.ReparseReplacesEverything | custom_components/wiz/pywizlight/home.py:80-90 | a successful parse owes nothing to the state it started from |
| Home.AbsentListsGiveEmptyMaps | custom_components/wiz/pywizlight/home.py:81-91 | absent rooms, devices or groups lists give empty dicts |
| Home.IndexItems | custom_components/wiz/pywizlight/home.py:85-88 | the loop builds the dict of the reference fold, and stops at the same exception |
| Home.SourceOf | custom_components/wiz/pywizlight/home.py:39-63 | the file name wins, then the URL, then the default file if it exists, and otherwise there is no source |
| Home.WizHome.constructor | custom_components/wiz/pywizlight/home.py:19-36 | a new home has no content, empty dicts and no details |
| Home.WizHome.FetchJsonContent | custom_components/wiz/pywizlight/home.py:38-63 | each source returns 200 after reading its file; the URL source returns the status and keeps the content only on 200; without a source an error is raised |
| Home.WizHome.ParseJson | custom_components/wiz/pywizlight/home.py:65-99 | the fields after parsing, and the exception raised, are those of the parse model on the old fields and content |
| Home.WizHome.CopyDetailsFrom | custom_components/wiz/pywizlight/home.py:75-79 | the assignments leave the fields the detail model gives, keeping those made before a failure |
| Home.WizHome.FillMapsFrom | custom_components/wiz/pywizlight/home.py:80-93 | the loops leave the dicts the fill model gives |
| Home.WizHome.DeviceDetails | custom_components/wiz/pywizlight/home.py:101-109 | without content the details are {}; otherwise the exact-key lookup answers the stored device or None |
| CustomEffect.Qualifying | custom_components/wiz/utils/custom_effect.py:80-81 | the records steps are built from are lists of at least 13 elements, no more than the raw entries |
| CustomEffect.StepOf | custom_components/wiz/utils/custom_effect.py:82-96 | a step carries the record's rendering type and its twelve following values in order |
| CustomEffect.StepsOf | custom_components/wiz/utils/custom_effect.py:80-97 | the only exception building the steps raises is ValueError |
| CustomEffect.StepsOfMeaning | custom_components/wiz/utils/custom_effect.py:80-97 | building fails exactly when a qualifying record has an unknown rendering type; otherwise there is one step per qualifying record, in order |
| CustomEffect.Preview | custom_components/wiz/utils/custom_effect.py:65-103 | an elm that is not a dict raises AttributeError, a refused modifier ValueError, a steps value that is not iterable TypeError and a refused rendering type ValueError, and the effect is built exactly when none of these happens; the details are the elm's modifier, gradient, initStep and rand and the record's duration, with defaults True, 0, 0 and 10; the steps are one per qualifying record, in order, or the white default step alone when no record qualifies |
| CustomEffect.CreatePreviewEffect | custom_components/wiz/utils/custom_effect.py:65-103 | the method, which builds the step list in a loop, returns exactly the effect or the exception the preview model gives |
| CustomEffect.BuildSteps | custom_components/wiz/utils/custom_effect.py:77-97 | the step loop builds the steps the step model describes |
| CustomEffect.Verdict | custom_components/wiz/utils/custom_effect.py:48-63 | a record without a name or with a false state is skipped; a named, enabled record whose preview succeeds is built with its name and that effect; a preview raising ValueError or TypeError skips the record and any other exception escapes; a non-dict record raises AttributeError |
| CustomEffect.LoadAll | custom_components/wiz/utils/custom_effect.py:47-63 | the names and the effects lists have the same length |
| CustomEffect.LoadWithPairs | custom_components/wiz/utils/custom_effect.py:47-63 | whatever the loop body does to a record, the i-th name and the i-th effect were built from one record |
| CustomEffect.LoadAllPairs | custom_components/wiz/utils/custom_effect.py:55-56 | the i-th name and the i-th effect come from the same record, whose name it is, and every effect has a step |
| CustomEffect.SkippedRecordIsTransparent | custom_components/wiz/utils/custom_effect.py:47-63 | a skipped record leaves the load of the following records unchanged |
| CustomEffect.LoadFromData | custom_components/wiz/utils/custom_effect.py:43-47 | a document without custom_effects loads nothing; one that is not a dict raises |
| CustomEffect.RecordVerdict | custom_components/wiz/utils/custom_effect.py:48-63 | the loop body reaches the verdict of the record model |
| CustomEffect.CustomEffectManager.constructor | custom_components/wiz/utils/custom_effect.py:23-33 | a new manager has no names and no effects |
| CustomEffect.CustomEffectManager.LoadEffects | custom_components/wiz/utils/custom_effect.py:35-41 | a falsy stored config loads nothing; otherwise the stored document is loaded |
| CustomEffect.CustomEffectManager.LoadEffectsFromData | custom_components/wiz/utils/custom_effect.py:43-63 | the loaded names and effects are appended after the earlier ones, which stay unchanged |
| CustomEffect.CustomEffectManager.AppendRecords | custom_components/wiz/utils/custom_effect.py:47-63 | the loop appends the names and effects of the load model in lockstep |
| CustomEffect.CustomEffectManager.EffectNames | custom_components/wiz/utils/custom_effect.py:105-107 | the names returned are element for element the manager's names |
| CustomEffect.CustomEffectManager.PreviewEffects | custom_components/wiz/utils/custom_effect.py:109-111 | the effects returned are element for element the manager's effects |
| FlowHelpers.Probe | custom_components/wiz/utils/config_flow_helpers.py:34-36 | the bulb type is queried first and its failure wins; an answer needs both queries to answer |
| FlowHelpers.HelperBaseError | custom_components/wiz/utils/config_flow_helpers.py:37-47 | connection errors and OS errors give cannot_connect, timeouts give bulb_time_out, and every other exception propagates |
| FlowHelpers.ValidateAndConnectBulb | custom_components/wiz/utils/config_flow_helpers.py:22-51 | an empty host gives host_required and a non-IP host gives no_ip, both without contacting the bulb; the errors are empty exactly when a bulb type is returned |
| FlowHelpers.HomeLinkFromEntries | custom_components/wiz/utils/config_flow_helpers.py:54-59 | the link of the first entry holding the key, and None exactly when no entry holds it |
| FlowHelpers.FormatDiscoveredDevices | custom_components/wiz/utils/config_flow_helpers.py:62-72 | a discovered MAC is listed exactly when neither its id nor its IP is known, with its label; the keys are a subset of the discovered ones |
| FlowHelpers.DeviceLabelShape | custom_components/wiz/utils/config_flow_helpers.py:69 | a label starts with the default name and a space and ends with the IP in parentheses |
| FlowHelpers.EntryData | custom_components/wiz/utils/config_flow_helpers.py:83-85 | the data always holds the host, and holds the link key exactly when the link is truthy |
| FlowHelpers.CreateBulbEntryData | custom_components/wiz/utils/config_flow_helpers.py:75-88 | the title is the full bulb name and the data is the entry data of the host and link |
| FlowHelpers.ValidateHomeLink | custom_components/wiz/utils/config_flow_helpers.py:91-93 | a link is valid exactly when it starts with the allowed prefix |
| FlowHelpers.EntryRegistry.constructor | custom_components/wiz/utils/config_flow_helpers.py:98 | the registry starts on the given entries with no title update |
| FlowHelpers.EntryRegistry.UpdateTitle | custom_components/wiz/utils/config_flow_helpers.py:123 | only that entry's title changes, and the update is logged |
| FlowHelpers.EntryRegistry.UpdateHost | custom_components/wiz/config_flow.py:125 | only that entry's host changes |
| FlowHelpers.EntryRegistry.Add | custom_components/wiz/config_flow.py:131-133 | the new entry is appended |
| FlowHelpers.CurrentEntries | custom_components/wiz/utils/config_flow_helpers.py:98 | the current entries are exactly the entries not ignored |
| FlowHelpers.CurrentEntriesAppend | custom_components/wiz/utils/config_flow_helpers.py:98 | the filter keeps the order of the entries: filtering two runs of entries gives the filtered first run followed by the filtered second |
| FlowHelpers.CurrentHomeLink | custom_components/wiz/config_flow.py:118-122 | the home link read from the current entries is None exactly when no entry that is not ignored holds one, and otherwise is the link of the first such entry |
| FlowHelpers.NewTitle | custom_components/wiz/utils/config_flow_helpers.py:98-140 | entries that are ignored, have a link, have no host, whose bulb fails, or have no unique id get no new title; conversely, an entry that is not ignored, has no link, has a host, an answering bulb and a unique id gets the name the namer gives its bulb type and unique id, exactly when that name differs from its current title |
| FlowHelpers.RenamedPositions | custom_components/wiz/utils/config_flow_helpers.py:98-123 | the positions updated are exactly those with a new title, each listed once, in increasing order |
| FlowHelpers.RenamedTitleIsFullName | custom_components/wiz/utils/config_flow_helpers.py:110-123 | with build_full_bulb_name as the namer, renaming changes only the title, and a new title is the full bulb name of the entry's bulb type and unique id, so it is the base name or ends with " [<base>]" |
| FlowHelpers.UpdateExistingDeviceNames | custom_components/wiz/utils/config_flow_helpers.py:96-140 | every entry is renamed on its own, so one failure does not stop the others; exactly the entries with a new title are updated, in order |
| FlowHelpers.RenameSkipsLinkedOrHostless | custom_components/wiz/utils/config_flow_helpers.py:99-108 | an entry with a link or without a host is left exactly as it was |
| ConfigFlow.FlowBaseError | custom_components/wiz/config_flow.py:97-108 | a connection error gives cannot_connect, a timeout gives bulb_time_out, and every other exception gives unknown |
| ConfigFlow.FlowValidation | custom_components/wiz/config_flow.py:83-112 | an empty host gives exactly host_required and a non-IP host exactly no_ip; a failing bulb gives exactly its base error; the errors are empty exactly when a bulb type is returned |
| ConfigFlow.BuildFullBulbName | custom_components/wiz/utils/utils.py:25-27 | given a bulb type the title is the full bulb name; given text the name raises AttributeError |
| ConfigFlow.ConfiguredIndex | custom_components/wiz/config_flow.py:124-125 | the first entry, ignored ones included, with that unique id, and None exactly when no entry has it |
| ConfigFlow.DuplicateMacUpdatesHostOnly | custom_components/wiz/config_flow.py:124-125 | a MAC already registered aborts already_configured, creates nothing, and changes only that entry's host |
| ConfigFlow.NewEntryCarriesFirstLink | custom_components/wiz/config_flow.py:118-133 | a new MAC appends one entry whose data is the host plus the first current entry's link when that link is non-empty |
| ConfigFlow.ConfirmAsWrittenRaises | custom_components/wiz/config_flow.py:175-177 | the confirmation as written raises for every reachable new bulb, while passing the bulb type creates the entry |
| ConfigFlow.WizConfigFlow.constructor | custom_components/wiz/config_flow.py:35-37 | a new flow has no discovered device |
| ConfigFlow.WizConfigFlow.IsFirstSetup | custom_components/wiz/config_flow.py:39-44 | first setup holds exactly when the stored config is falsy or nothing is stored |
| ConfigFlow.WizConfigFlow.DownloadAndValidateWizHome | custom_components/wiz/config_flow.py:46-81 | it answers True exactly when a record is saved, leaves the slot unchanged otherwise, and requests the URL even when it is empty |
| ConfigFlow.WizConfigFlow.ValidateAndConnectBulb | custom_components/wiz/config_flow.py:83-112 | the method answers the validation model and contacts the bulb only for a non-empty IP host |
| ConfigFlow.WizConfigFlow.CreateBulbEntry | custom_components/wiz/config_flow.py:114-133 | the result and the new entries are the entry-step model's, with the title from the stored config |
| ConfigFlow.WizConfigFlow.StepDhcp | custom_components/wiz/config_flow.py:135-142 | the discovered device is recorded and handled, a created entry being titled from the stored home config; this runs the corrected confirmation of the Findings row, not the raising one |
| ConfigFlow.WizConfigFlow.StepIntegrationDiscovery | custom_components/wiz/config_flow.py:144-151 | missing ip_address or mac_address raises KeyError before anything changes; otherwise the device is recorded and handled, a created entry being titled from the stored home config; this runs the corrected confirmation of the Findings row, not the raising one |
| ConfigFlow.WizConfigFlow.HandleDiscovery | custom_components/wiz/config_flow.py:153-161 | a configured MAC aborts already_configured, updating that entry's host to the IP, without contacting the bulb; otherwise the confirmation runs, titling a created entry from the stored home config; this is the corrected confirmation of the Findings row |
| ConfigFlow.WizConfigFlow.DiscoveryConfirm | custom_components/wiz/config_flow.py:163-180 | no device aborts no_device_found; with input or before onboarding it runs the entry step on the validated bulb, titled from the stored home config, or aborts cannot_connect, never re-showing the form; otherwise it shows the confirmation form; this is the corrected half of the Findings row: it passes the bulb type, not `str(bulbtype)` |
| ConfigFlow.WizConfigFlow.StepUser | custom_components/wiz/config_flow.py:182-220 | on first setup a link without the prefix gives invalid_link without a download, and a failed download gives invalid_link without contacting the bulb; once the link passes (or on a later setup) a bulb that validates with a MAC goes to the entry step, titled from the stored config, and otherwise the form is re-shown with exactly the validation's errors; the form offers the link field exactly on first setup |

## Left out

- Network, UDP, file and clock access are parameters: the bulb answers, `is_ip_address`, onboarding, HTTP GETs, file reads, the directory listing and `hass.loop.time()`. They are not modelled.
- Logging is not modelled. Neither are the `cli.py` commands and the client libraries (`wizlight`, the effect-manager enums).
- `fetchJSONContent` also writes the downloaded text to `home_structure.json`. That write is not modelled.
- Case mapping is ASCII-only. Python's `lower()` and `upper()` also map other Unicode letters.
- `Json.Str` and `Json.Repr` format strings, integers, booleans and None as Python does, but without Python's escaping of quotes and control characters inside strings.
- Python dict keys: `PyEq` makes `True == 1` and `False == 0` and compares other values structurally. It does not model hash collisions or coercion inside nested containers.
- The enum conversions `ModifierType(...)` and `RenderingType(...)` are predicates on the raw value. The model keeps the raw value, not the enum member.
- The config flow's framework behaviour also has these limits:
  - `raise_on_progress` on `async_set_unique_id` is not modelled, nor are flows running at the same time;
  - entry reloads after a host update are not modelled;
  - voluptuous schemas are reduced to whether the link field is offered;
  - converting non-string user input with `str(...)` is not modelled: host and link are strings or absent;
  - the framework's `_abort_if_unique_id_configured` is not part of this model. The model aborts `already_configured` for any entry with the MAC, ignored ones included, on every step. Home Assistant lets a user-step flow go on past an ignored entry and replaces that entry when the flow finishes. That case is not modelled.
- Json.Lookup: decoded objects are assumed to have unique keys. For a repeated key the lookup returns the first pair, while Python's `json.loads` keeps the last value.
- FlowHelpers.FormatDiscoveredDevices: the result is a Dafny map, so the dict's insertion order is not kept.
- FlowHelpers.UpdateExistingDeviceNames: `build_full_bulb_name` is passed in as a naming function for the config read once. Its own storage read is not repeated per entry.
- Which `utils` module Python binds for `from .utils import` is not modelled. `utils/__init__.py` is not part of this model. The flow uses the `utils/utils.py` naming over the store.

## Findings

| source | as written | input that shows it | evidently intended | confidence | as-written member | corrected member |
|---|---|---|---|---|---|---|
| custom_components/wiz/config_flow.py:175-177 | the confirmation passes `str(bulbtype)` to `build_full_bulb_name`, whose `name_from_bulb_type_and_mac` reads `bulb_type.bulb_type` (custom_components/wiz/utils/utils.py:27), so a string raises AttributeError | a DHCP discovery before onboarding of a bulb at a valid IP that answers its type and MAC, with that MAC not yet registered | pass the bulb type itself, as the user step does at custom_components/wiz/config_flow.py:213, and create the entry | not executed | ConfigFlow.ConfirmAsWrittenRaises | ConfigFlow.WizConfigFlow.DiscoveryConfirm |
