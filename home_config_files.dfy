/** `_load_wiz_home_config` of `utils.py`: scan the files of the storage directory and
    return the `data.config` dict of the first `wiz_home_config*` file that holds one.
    The directory listing, file reads and the JSON decoder are inputs. */
module HomeConfigFiles {
  import opened Wrappers
  import opened Text
  import opened Json

  const STORAGE_KEY: string := "wiz_home_config"

  /** One directory entry: its name and its text, `None` when opening or reading it fails. */
  datatype StorageFile = StorageFile(name: string, content: Option<string>)

  /** What examining one file leads to: go on, return its config, or leave the search because
      an exception escaped to the outer handler (which answers `None`). */
  datatype Verdict = Skip | Choose(config: Json) | Escape

  /** `storage_data.get("data", {}).get("config")`: `AttributeError` when either value is
      not a dict, a missing key giving `{}` and then `None`. */
  function StoredConfig(storageData: Json): (r: Result<Json, PyError>)
    ensures r.Err? <==> !IsDict(storageData) || !IsDict(Get(storageData, "data", JObj([])).value)
    ensures r.Ok? ==> r == Get(Get(storageData, "data", JObj([])).value, "config", JNull)
  {
    var data :- Get(storageData, "data", JObj([]));
    Get(data, "config", JNull)
  }

  /** The loop body for one file. A JSON decoding error is caught and skips the file; a read
      error, or `.get` on a value that is not a dict, escapes. */
  function FileVerdict(f: StorageFile, decode: string -> Option<Json>): (v: Verdict)
    ensures !StartsWith(f.name, STORAGE_KEY) ==> v == Skip
    ensures StartsWith(f.name, STORAGE_KEY) && f.content.None? ==> v == Escape
    ensures StartsWith(f.name, STORAGE_KEY) && f.content.Some? && decode(f.content.value).None? ==> v == Skip
    ensures StartsWith(f.name, STORAGE_KEY) && f.content.Some? && decode(f.content.value).Some? ==>
      var c := StoredConfig(decode(f.content.value).value);
      v == (if c.Err? then Escape else if IsDict(c.value) then Choose(c.value) else Skip)
    ensures v.Choose? <==>
      && StartsWith(f.name, STORAGE_KEY) && f.content.Some? && decode(f.content.value).Some?
      && StoredConfig(decode(f.content.value).value).Ok?
      && IsDict(StoredConfig(decode(f.content.value).value).value)
    ensures v.Choose? ==> IsDict(v.config)
  {
    if !StartsWith(f.name, STORAGE_KEY) then Skip
    else match f.content
      case None => Escape
      case Some(text) =>
        match decode(text)
        case None => Skip
        case Some(storageData) =>
          match StoredConfig(storageData)
          case Err(_) => Escape
          case Ok(config) => if IsDict(config) then Choose(config) else Skip
  }

  /** The config the scan returns, file by file. */
  function Selected(files: seq<StorageFile>, decode: string -> Option<Json>): Option<Json> {
    if files == [] then None
    else match FileVerdict(files[0], decode)
      case Skip => Selected(files[1..], decode)
      case Choose(config) => Some(config)
      case Escape => None
  }

  /** File `i` yields `config` and every file before it is skipped. */
  predicate ChosenAt(files: seq<StorageFile>, decode: string -> Option<Json>, config: Json, i: int) {
    0 <= i < |files| && FileVerdict(files[i], decode) == Choose(config) &&
    forall j :: 0 <= j < i ==> FileVerdict(files[j], decode) == Skip
  }

  /** The scan returns a config exactly when some file yields one and every file before it is
      skipped; that config is the first file's. */
  lemma {:induction false} SelectedIsFirstQualifying(files: seq<StorageFile>, decode: string -> Option<Json>, config: Json)
    ensures Selected(files, decode) == Some(config) <==> exists i :: ChosenAt(files, decode, config, i)
  {
    if files != [] {
      SelectedIsFirstQualifying(files[1..], decode, config);
      if FileVerdict(files[0], decode) == Skip {
        if Selected(files, decode) == Some(config) {
          var i :| ChosenAt(files[1..], decode, config, i);
          assert forall j :: 0 <= j < i + 1 ==> FileVerdict(files[j], decode) == Skip by {
            forall j | 0 <= j < i + 1 ensures FileVerdict(files[j], decode) == Skip {
              if j > 0 { assert files[j] == files[1..][j - 1]; }
            }
          }
          assert FileVerdict(files[i + 1], decode) == Choose(config);
          assert ChosenAt(files, decode, config, i + 1);
        }
        if exists i :: ChosenAt(files, decode, config, i) {
          var i :| ChosenAt(files, decode, config, i);
          assert i > 0;
          assert files[1..][i - 1] == files[i];
          assert forall j :: 0 <= j < i - 1 ==> files[1..][j] == files[j + 1];
          assert ChosenAt(files[1..], decode, config, i - 1);
        }
      } else {
        if FileVerdict(files[0], decode) == Choose(config) {
          assert ChosenAt(files, decode, config, 0);
        }
        if exists i :: ChosenAt(files, decode, config, i) {
          var i :| ChosenAt(files, decode, config, i);
          assert i == 0;
        }
      }
    }
  }

  /** Files that fail to decode, or whose name lacks the prefix, never decide the result. */
  lemma SkippedFileIsTransparent(f: StorageFile, rest: seq<StorageFile>, decode: string -> Option<Json>)
    requires !StartsWith(f.name, STORAGE_KEY) || (f.content.Some? && decode(f.content.value).None?)
    ensures Selected([f] + rest, decode) == Selected(rest, decode)
  {
    assert ([f] + rest)[1..] == rest;
  }

  /** `_load_wiz_home_config`: `None` when the storage directory is missing; otherwise the
      loop over the listing. */
  method LoadHomeConfig(storageExists: bool, files: seq<StorageFile>, decode: string -> Option<Json>)
    returns (config: Option<Json>)
    ensures !storageExists ==> config == None
    ensures storageExists ==> config == Selected(files, decode)
    ensures config.Some? ==> IsDict(config.value)
  {
    if !storageExists {
      return None;
    }
    var i := 0;
    while i < |files|
      invariant 0 <= i <= |files|
      invariant Selected(files, decode) == Selected(files[i..], decode)
    {
      assert files[i..][1..] == files[i + 1..];
      var v := FileVerdict(files[i], decode);
      if v.Choose? {
        return Some(v.config);
      } else if v.Escape? {
        return None;
      }
      i := i + 1;
    }
    return None;
  }
}
