/** The home-config store (`utils/storage.py`): one persisted slot that holds the last
    downloaded or locally loaded home-structure document. HTTP, file reads and the JSON
    decoder are inputs; the framework's `Store` is the `slot` field. */
module Storage {
  import opened Wrappers
  import opened Json

  /** `hass.loop.time()`, kept opaque. */
  type Timestamp = int

  /** Where the stored document came from: the `url` key, or the `file_path` key of a local load. */
  datatype Source = Url(url: string) | FilePath(path: string)

  /** The dict saved in the slot: `{url | file_path, config, downloaded_at | loaded_at}`. */
  datatype StoredData = StoredData(source: Source, config: Json, savedAt: Timestamp)

  /** What an HTTP GET yields: an `aiohttp.ClientError`, or a status and the body text. */
  datatype HttpOutcome = ClientError | Response(status: int, text: string)

  /** `async_load_config` on a slot: the stored `config`, `JNull` (None) when nothing is stored. */
  function ConfigOf(slot: Option<StoredData>): (c: Json)
    ensures slot.None? ==> c == JNull
    ensures slot.Some? ==> c == slot.value.config
  {
    if slot.Some? then slot.value.config else JNull
  }

  /** `async_get_stored_config_url` on a slot. */
  function UrlOf(slot: Option<StoredData>): (u: Option<string>)
    ensures u.Some? <==> slot.Some? && slot.value.source.Url?
    ensures u.Some? ==> u.value == slot.value.source.url
  {
    if slot.Some? && slot.value.source.Url? then Some(slot.value.source.url) else None
  }

  /** The record a download of `url` saves, or `None` when it answers False: a client error,
      a status other than 200, or a body that is not JSON. The body is decoded before the
      save, so a malformed body saves nothing. */
  function FetchRecord(url: string, fetch: string -> HttpOutcome, decode: string -> Option<Json>, now: Timestamp)
    : (r: Option<StoredData>)
    ensures r.Some? <==> fetch(url).Response? && fetch(url).status == 200 && decode(fetch(url).text).Some?
    ensures r.Some? ==> r.value == StoredData(Url(url), decode(fetch(url).text).value, now)
  {
    match fetch(url)
    case ClientError => None
    case Response(status, text) =>
      if status != 200 then None
      else match decode(text)
        case None => None
        case Some(config) => Some(StoredData(Url(url), config, now))
  }

  /** `async_download_and_store_config`: as `FetchRecord`, but an empty URL answers False
      before any request. */
  function DownloadRecord(url: string, fetch: string -> HttpOutcome, decode: string -> Option<Json>, now: Timestamp)
    : (r: Option<StoredData>)
    ensures url == "" ==> r == None
    ensures url != "" ==> r == FetchRecord(url, fetch, decode, now)
  {
    if url == "" then None else FetchRecord(url, fetch, decode, now)
  }

  /** `async_load_local_config_and_store`: the record saved from the bundled file, or `None`
      when the file is missing, unreadable (`content` None) or not JSON. */
  function LocalRecord(path: string, fileExists: bool, content: Option<string>, decode: string -> Option<Json>, now: Timestamp)
    : (r: Option<StoredData>)
    ensures r.Some? <==> fileExists && content.Some? && decode(content.value).Some?
    ensures r.Some? ==> r.value == StoredData(FilePath(path), decode(content.value).value, now)
  {
    if !fileExists || content.None? then None
    else match decode(content.value)
      case None => None
      case Some(config) => Some(StoredData(FilePath(path), config, now))
  }

  /** After a successful download the slot answers the downloaded document and its URL. */
  lemma DownloadThenRead(url: string, fetch: string -> HttpOutcome, decode: string -> Option<Json>, now: Timestamp)
    requires DownloadRecord(url, fetch, decode, now).Some?
    ensures ConfigOf(DownloadRecord(url, fetch, decode, now)) == decode(fetch(url).text).value
    ensures UrlOf(DownloadRecord(url, fetch, decode, now)) == Some(url)
    ensures url != ""
  {
  }

  /** A local load records `file_path`, so no URL is reported afterwards. */
  lemma LocalLoadHasNoUrl(path: string, fileExists: bool, content: Option<string>, decode: string -> Option<Json>, now: Timestamp)
    requires LocalRecord(path, fileExists, content, decode, now).Some?
    ensures UrlOf(LocalRecord(path, fileExists, content, decode, now)) == None
    ensures ConfigOf(LocalRecord(path, fileExists, content, decode, now)) == decode(content.value).value
  {
  }

  /** `WizHomeConfigStorage`. `requests` records the URLs the store has fetched. */
  class HomeConfigStore {
    var slot: Option<StoredData>
    ghost var requests: seq<string>

    /** A store over the persisted slot `persisted`. */
    constructor (persisted: Option<StoredData>)
      ensures slot == persisted && requests == []
    {
      slot := persisted;
      requests := [];
    }

    /** `async_get_stored_data` */
    function StoredDataValue(): (d: Option<StoredData>)
      reads this
      ensures ConfigOf(d) == LoadConfig() && UrlOf(d) == StoredConfigUrl()
    {
      slot
    }

    /** `async_load_config` */
    function LoadConfig(): (c: Json)
      reads this
      ensures c == ConfigOf(slot)
    {
      ConfigOf(slot)
    }

    /** `async_has_stored_config`: the loaded config is not None. */
    function HasStoredConfig(): (b: bool)
      reads this
      ensures b <==> LoadConfig() != JNull
    {
      ConfigOf(slot) != JNull
    }

    /** `async_get_stored_config_url` */
    function StoredConfigUrl(): (u: Option<string>)
      reads this
      ensures u == UrlOf(slot)
    {
      UrlOf(slot)
    }

    /** `async_download_and_store_config` */
    method DownloadAndStoreConfig(url: string, fetch: string -> HttpOutcome, decode: string -> Option<Json>, now: Timestamp)
      returns (ok: bool)
      modifies this
      ensures ok <==> DownloadRecord(url, fetch, decode, now).Some?
      ensures slot == if ok then DownloadRecord(url, fetch, decode, now) else old(slot)
      ensures requests == if url == "" then old(requests) else old(requests) + [url]
    {
      if url == "" {
        return false;
      }
      requests := requests + [url];
      var reply := fetch(url);
      if reply.ClientError? {
        return false;
      }
      if reply.status != 200 {
        return false;
      }
      var config := decode(reply.text);
      if config.None? {
        return false;
      }
      slot := Some(StoredData(Url(url), config.value, now));
      return true;
    }

    /** `async_clear_config` */
    method ClearConfig()
      modifies this
      ensures slot == None && requests == old(requests)
      ensures LoadConfig() == JNull && !HasStoredConfig()
    {
      slot := None;
    }

    /** `async_load_local_config_and_store` for the bundled file at `path`. */
    method LoadLocalConfigAndStore(path: string, fileExists: bool, content: Option<string>,
                                   decode: string -> Option<Json>, now: Timestamp)
      returns (ok: bool)
      modifies this
      ensures ok <==> LocalRecord(path, fileExists, content, decode, now).Some?
      ensures slot == if ok then LocalRecord(path, fileExists, content, decode, now) else old(slot)
      ensures ok ==> StoredConfigUrl() == None
      ensures requests == old(requests)
    {
      if !fileExists {
        return false;
      }
      if content.None? {
        return false;
      }
      var config := decode(content.value);
      if config.None? {
        return false;
      }
      slot := Some(StoredData(FilePath(path), config.value, now));
      return true;
    }
  }
}
