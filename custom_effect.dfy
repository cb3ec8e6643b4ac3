/** `utils/custom_effect.py`: the custom effects of a home-structure document, turned into
    preview effects. The effect library's enum conversions (`ModifierType`,
    `RenderingType`) are inputs saying which values they accept; a value they refuse raises
    `ValueError`. */
module CustomEffect {
  import opened Wrappers
  import opened Json
  import opened Storage

  /** Which raw values `ModifierType(...)` and `RenderingType(...)` accept. */
  datatype EnumOracles = EnumOracles(modifierOk: Json -> bool, renderingOk: Json -> bool)

  /** `EffectDetails`, with the raw values it was built from. */
  datatype EffectDetails = EffectDetails(modifier: Json, gradient: Json, initStep: Json, rand: Json, duration: Json)

  /** An `EffectStep`: from a list record (its rendering type and the twelve values after
      it), or `EffectStep.from_rgb`. */
  datatype EffectStep = Step(renderingType: Json, values: seq<Json>) | FromRgb(r: int, g: int, b: int)

  datatype PreviewEffect = PreviewEffect(details: EffectDetails, steps: seq<EffectStep>)

  /** The step added when no record qualifies: white. */
  const DEFAULT_STEP: EffectStep := FromRgb(255, 255, 255)

  /** The records of `raw` a step is built from: lists of at least 13 elements, in order. */
  function Qualifying(raw: seq<Json>): (r: seq<seq<Json>>)
    ensures |r| <= |raw|
    ensures forall k :: 0 <= k < |r| ==> |r[k]| >= 13
  {
    if raw == [] then []
    else
      var rest := Qualifying(raw[1..]);
      if raw[0].JArr? && |raw[0].items| >= 13 then [raw[0].items] + rest else rest
  }

  /** The step a qualifying record describes. */
  function StepOf(record: seq<Json>): (s: EffectStep)
    requires |record| >= 13
    ensures s.Step? && s.renderingType == record[0] && |s.values| == 12
    ensures forall k :: 1 <= k <= 12 ==> s.values[k - 1] == record[k]
  {
    Step(record[0], record[1..13])
  }

  /** A step list with `steps` in front of what `r` computes, or `r`'s exception. */
  function Prepend(steps: seq<EffectStep>, r: Result<seq<EffectStep>, PyError>): Result<seq<EffectStep>, PyError> {
    if r.Err? then r else Ok(steps + r.value)
  }

  /** The steps of `raw`: one per qualifying record, in order, or `ValueError` when a
      qualifying record's rendering type is refused. */
  function StepsOf(raw: seq<Json>, enums: EnumOracles): (r: Result<seq<EffectStep>, PyError>)
    ensures r.Err? ==> r.error == ValueError
  {
    if raw == [] then Ok([])
    else if raw[0].JArr? && |raw[0].items| >= 13 then
      if !enums.renderingOk(raw[0].items[0]) then Err(ValueError)
      else match StepsOf(raw[1..], enums)
        case Err(e) => Err(e)
        case Ok(rest) => Ok([StepOf(raw[0].items)] + rest)
    else StepsOf(raw[1..], enums)
  }

  /** Some qualifying record of `raw` has a rendering type `RenderingType(...)` refuses. */
  predicate Refused(raw: seq<Json>, enums: EnumOracles) {
    exists k :: 0 <= k < |Qualifying(raw)| && !enums.renderingOk(Qualifying(raw)[k][0])
  }

  /** Building the steps fails exactly when some qualifying record is refused; otherwise
      there is one step per qualifying record, in order. */
  lemma {:induction false} StepsOfMeaning(raw: seq<Json>, enums: EnumOracles)
    ensures StepsOf(raw, enums).Err? <==> Refused(raw, enums)
    ensures StepsOf(raw, enums).Ok? ==>
      && |StepsOf(raw, enums).value| == |Qualifying(raw)|
      && forall k :: 0 <= k < |Qualifying(raw)| ==> StepsOf(raw, enums).value[k] == StepOf(Qualifying(raw)[k])
  {
    if raw != [] {
      StepsOfMeaning(raw[1..], enums);
      var q := Qualifying(raw[1..]);
      if raw[0].JArr? && |raw[0].items| >= 13 {
        assert Qualifying(raw) == [raw[0].items] + q;
        if !enums.renderingOk(raw[0].items[0]) {
          assert Qualifying(raw)[0] == raw[0].items;
        } else if StepsOf(raw[1..], enums).Err? {
          var k :| 0 <= k < |q| && !enums.renderingOk(q[k][0]);
          assert Qualifying(raw)[k + 1] == q[k];
        } else {
          assert forall k :: 1 <= k < |Qualifying(raw)| ==> Qualifying(raw)[k] == q[k - 1];
        }
      } else {
        assert Qualifying(raw) == q;
        assert Refused(raw, enums) <==> Refused(raw[1..], enums);
      }
    }
  }

  /** `effect_data.get("elm", {})` */
  function Elm(effectData: Json): Json
    requires IsDict(effectData)
  {
    Get(effectData, "elm", JObj([])).value
  }

  /** What `for step_data in elm_data.get("steps", [])` visits. */
  function RawSteps(elm: Json): Result<seq<Json>, PyError>
    requires IsDict(elm)
  {
    Elements(Get(elm, "steps", JArr([])).value)
  }

  /** The raw `modifier` value, before `ModifierType(...)` converts it. */
  function Modifier(elm: Json): Json
    requires IsDict(elm)
  {
    Get(elm, "modifier", JInt(0)).value
  }

  /** The `EffectDetails(...)` call with its defaults: `gradient` True, `initStep` and `rand`
      0, `duration` 10. */
  function DetailsOf(effectData: Json, elm: Json): EffectDetails
    requires IsDict(effectData) && IsDict(elm)
  {
    EffectDetails(
      Modifier(elm),
      Get(elm, "gradient", JBool(true)).value,
      Get(elm, "initStep", JInt(0)).value,
      Get(elm, "rand", JInt(0)).value,
      Get(effectData, "duration", JInt(10)).value)
  }

  /** `_create_preview_effect` on a dict record. `elm` that is not a dict raises
      `AttributeError`; a refused modifier raises `ValueError`; a `steps` value that is not
      iterable raises `TypeError`; a refused rendering type raises `ValueError`. */
  function Preview(effectData: Json, enums: EnumOracles): (r: Result<PreviewEffect, PyError>)
    requires IsDict(effectData)
    ensures var elm := Elm(effectData);
      && (!IsDict(elm) ==> r == Err(AttributeError))
      && (IsDict(elm) && !enums.modifierOk(Modifier(elm)) ==> r == Err(ValueError))
      && (IsDict(elm) && enums.modifierOk(Modifier(elm)) && RawSteps(elm).Err? ==> r == Err(TypeError))
      && (IsDict(elm) && enums.modifierOk(Modifier(elm)) && RawSteps(elm).Ok? && Refused(RawSteps(elm).value, enums) ==>
            r == Err(ValueError))
    ensures r.Ok? <==>
      var elm := Elm(effectData);
      IsDict(elm) && enums.modifierOk(Modifier(elm)) && RawSteps(elm).Ok? && !Refused(RawSteps(elm).value, enums)
    ensures r.Ok? ==> IsDict(Elm(effectData)) && r.value.details == DetailsOf(effectData, Elm(effectData))
    ensures r.Ok? ==> r.value.details.duration == Get(effectData, "duration", JInt(10)).value
    ensures r.Ok? ==>
      var q := Qualifying(RawSteps(Elm(effectData)).value);
      && (q == [] ==> r.value.steps == [DEFAULT_STEP])
      && (q != [] ==> |r.value.steps| == |q| && forall k :: 0 <= k < |q| ==> r.value.steps[k] == StepOf(q[k]))
    ensures r.Ok? ==> |r.value.steps| >= 1
    ensures r.Err? ==> r.error in {AttributeError, ValueError, TypeError}
  {
    var elm := Elm(effectData);
    if !IsDict(elm) then Err(AttributeError)
    else if !enums.modifierOk(Modifier(elm)) then Err(ValueError)
    else match RawSteps(elm)
      case Err(e) => Err(e)
      case Ok(raw) =>
        StepsOfMeaning(raw, enums);
        match StepsOf(raw, enums)
        case Err(e) => Err(e)
        case Ok(steps) => Ok(PreviewEffect(DetailsOf(effectData, elm), if steps == [] then [DEFAULT_STEP] else steps))
  }

  /** `_create_preview_effect`, building its step list in a loop. */
  method CreatePreviewEffect(effectData: Json, enums: EnumOracles) returns (r: Result<PreviewEffect, PyError>)
    requires IsDict(effectData)
    ensures r == Preview(effectData, enums)
  {
    var elm := Elm(effectData);
    if !IsDict(elm) {
      return Err(AttributeError);
    }
    if !enums.modifierOk(Modifier(elm)) {
      return Err(ValueError);
    }
    var details := DetailsOf(effectData, elm);
    var rawSteps := RawSteps(elm);
    if rawSteps.Err? {
      return Err(rawSteps.error);
    }
    var steps := BuildSteps(rawSteps.value, enums);
    if steps.Err? {
      return Err(steps.error);
    }
    if steps.value == [] {
      steps := Ok([DEFAULT_STEP]);
    }
    return Ok(PreviewEffect(details, steps.value));
  }

  /** The `for step_data in raw_steps` loop of `_create_preview_effect`. */
  method BuildSteps(raw: seq<Json>, enums: EnumOracles) returns (r: Result<seq<EffectStep>, PyError>)
    ensures r == StepsOf(raw, enums)
  {
    var steps: seq<EffectStep> := [];
    var i := 0;
    assert raw[0..] == raw;
    assert StepsOf(raw, enums).Ok? ==> [] + StepsOf(raw, enums).value == StepsOf(raw, enums).value;
    while i < |raw|
      invariant 0 <= i <= |raw|
      invariant StepsOf(raw, enums) == Prepend(steps, StepsOf(raw[i..], enums))
    {
      StepsOfAt(steps, raw, enums, i);
      if raw[i].JArr? && |raw[i].items| >= 13 {
        if !enums.renderingOk(raw[i].items[0]) {
          return Err(ValueError);
        }
        steps := steps + [StepOf(raw[i].items)];
      }
      i := i + 1;
    }
    assert raw[i..] == [];
    assert steps + [] == steps;
    return Ok(steps);
  }

  /** One turn of the loop: a refused record ends it with `ValueError`, a qualifying one
      appends its step, any other record is passed over. */
  lemma StepsOfAt(steps: seq<EffectStep>, raw: seq<Json>, enums: EnumOracles, i: nat)
    requires i < |raw|
    ensures var qualifies := raw[i].JArr? && |raw[i].items| >= 13;
      var here := Prepend(steps, StepsOf(raw[i..], enums));
      && (qualifies && !enums.renderingOk(raw[i].items[0]) ==> here == Err(ValueError))
      && (qualifies && enums.renderingOk(raw[i].items[0]) ==>
            here == Prepend(steps + [StepOf(raw[i].items)], StepsOf(raw[i + 1..], enums)))
      && (!qualifies ==> here == Prepend(steps, StepsOf(raw[i + 1..], enums)))
  {
    assert raw[i..][0] == raw[i] && raw[i..][1..] == raw[i + 1..];
    var rest := StepsOf(raw[i + 1..], enums);
    if rest.Ok? && raw[i].JArr? && |raw[i].items| >= 13 {
      assert steps + ([StepOf(raw[i].items)] + rest.value) == steps + [StepOf(raw[i].items)] + rest.value;
    }
  }

  /** The exceptions the loop catches: `KeyError`, `ValueError`, `TypeError`. */
  predicate Caught(e: PyError) {
    e.KeyError? || e == ValueError || e == TypeError
  }

  /** What one record of `custom_effects` does to the load: nothing, add a named effect, or
      raise an exception the loop does not catch. */
  datatype EffectVerdict = Skipped | Built(name: Json, effect: PreviewEffect) | Raised(error: PyError)

  /** The loop body of `_load_effects_from_data` for one record. A missing or empty name, or
      a false `state`, skips it; `KeyError`, `ValueError` and `TypeError` are caught and skip
      it; anything else escapes. */
  function Verdict(effectData: Json, enums: EnumOracles): (v: EffectVerdict)
    ensures !IsDict(effectData) ==> v == Raised(AttributeError)
    ensures IsDict(effectData) && !Truthy(Get(effectData, "name", JStr("")).value) ==> v == Skipped
    ensures IsDict(effectData) && !Truthy(Get(effectData, "state", JBool(true)).value) ==> v == Skipped
    ensures v.Built? ==>
      && IsDict(effectData)
      && v.name == Get(effectData, "name", JStr("")).value && Truthy(v.name)
      && Preview(effectData, enums) == Ok(v.effect)
    ensures v.Built? ==> |v.effect.steps| >= 1
    ensures v.Raised? ==> v.error == AttributeError
    ensures IsDict(effectData) && Preview(effectData, enums) in {Err(ValueError), Err(TypeError)} ==> v == Skipped
    ensures (IsDict(effectData) && Truthy(Get(effectData, "name", JStr("")).value) &&
             Truthy(Get(effectData, "state", JBool(true)).value)) ==>
      && (Preview(effectData, enums).Ok? ==>
            v == Built(Get(effectData, "name", JStr("")).value, Preview(effectData, enums).value))
      && (Preview(effectData, enums).Err? && !Caught(Preview(effectData, enums).error) ==>
            v == Raised(Preview(effectData, enums).error))
  {
    if !IsDict(effectData) then Raised(AttributeError)
    else
      var name := Get(effectData, "name", JStr("")).value;
      if !Truthy(name) || !Truthy(Get(effectData, "state", JBool(true)).value) then Skipped
      else match Preview(effectData, enums)
        case Ok(effect) => Built(name, effect)
        case Err(e) => if Caught(e) then Skipped else Raised(e)
  }

  /** The lists a load appends, and the exception that ended it, if any. */
  datatype Loading = Loading(names: seq<Json>, effects: seq<PreviewEffect>, error: Option<PyError>)

  /** The loop of `_load_effects_from_data` over the records, for any loop body. */
  function LoadWith(items: seq<Json>, verdict: Json -> EffectVerdict): (r: Loading)
    ensures |r.names| == |r.effects|
  {
    if items == [] then Loading([], [], None)
    else match verdict(items[0])
      case Skipped => LoadWith(items[1..], verdict)
      case Raised(e) => Loading([], [], Some(e))
      case Built(name, effect) =>
        var rest := LoadWith(items[1..], verdict);
        Loading([name] + rest.names, [effect] + rest.effects, rest.error)
  }

  /** The loop body of `_load_effects_from_data` as a value. */
  function VerdictOf(enums: EnumOracles): Json -> EffectVerdict {
    effectData => Verdict(effectData, enums)
  }

  /** The loop of `_load_effects_from_data` over the records. */
  function LoadAll(items: seq<Json>, enums: EnumOracles): (r: Loading)
    ensures |r.names| == |r.effects|
  {
    LoadWith(items, VerdictOf(enums))
  }

  /** Record `j` produced `name` and `effect`. */
  predicate BuiltAt(items: seq<Json>, verdict: Json -> EffectVerdict, name: Json, effect: PreviewEffect, j: int) {
    0 <= j < |items| && verdict(items[j]) == Built(name, effect)
  }

  /** Whatever the loop body, the i-th name and the i-th effect come from one record. */
  lemma {:induction false} LoadWithPairs(items: seq<Json>, verdict: Json -> EffectVerdict, i: int)
    requires 0 <= i < |LoadWith(items, verdict).names|
    ensures exists j :: BuiltAt(items, verdict, LoadWith(items, verdict).names[i], LoadWith(items, verdict).effects[i], j)
  {
    var rest := LoadWith(items[1..], verdict);
    var r := LoadWith(items, verdict);
    match verdict(items[0])
    case Skipped =>
      LoadWithPairs(items[1..], verdict, i);
      var j :| BuiltAt(items[1..], verdict, rest.names[i], rest.effects[i], j);
      assert items[1..][j] == items[j + 1];
      assert BuiltAt(items, verdict, r.names[i], r.effects[i], j + 1);
    case Built(name, effect) =>
      if i == 0 {
        assert BuiltAt(items, verdict, r.names[i], r.effects[i], 0);
      } else {
        assert r.names[i] == rest.names[i - 1] && r.effects[i] == rest.effects[i - 1];
        LoadWithPairs(items[1..], verdict, i - 1);
        var j :| BuiltAt(items[1..], verdict, rest.names[i - 1], rest.effects[i - 1], j);
        assert items[1..][j] == items[j + 1];
        assert BuiltAt(items, verdict, r.names[i], r.effects[i], j + 1);
      }
  }

  /** Name `i` and effect `i` come from the same record, whose name it is. */
  predicate PairedAt(items: seq<Json>, enums: EnumOracles, name: Json, effect: PreviewEffect, j: int) {
    0 <= j < |items| && Verdict(items[j], enums) == Built(name, effect)
  }

  /** The two lists grow in lockstep: the i-th name and the i-th effect belong to the same
      record, whose name it is, and every effect has a step. */
  lemma LoadAllPairs(items: seq<Json>, enums: EnumOracles, i: int)
    requires 0 <= i < |LoadAll(items, enums).names|
    ensures exists j :: PairedAt(items, enums, LoadAll(items, enums).names[i], LoadAll(items, enums).effects[i], j)
    ensures |LoadAll(items, enums).effects[i].steps| >= 1
  {
    var r := LoadAll(items, enums);
    LoadWithPairs(items, VerdictOf(enums), i);
    var j :| BuiltAt(items, VerdictOf(enums), r.names[i], r.effects[i], j);
    assert Verdict(items[j], enums) == Built(r.names[i], r.effects[i]);
    assert PairedAt(items, enums, r.names[i], r.effects[i], j);
  }

  /** A record that is skipped, for whatever reason, leaves the load of the later records as
      it would be without it. */
  lemma SkippedRecordIsTransparent(item: Json, rest: seq<Json>, enums: EnumOracles)
    requires Verdict(item, enums) == Skipped
    ensures LoadAll([item] + rest, enums) == LoadAll(rest, enums)
  {
    assert ([item] + rest)[1..] == rest;
  }

  /** `_load_effects_from_data` on a home document: `custom_effects` defaults to `[]`; `.get`
      on a document that is not a dict, or a `custom_effects` value that is not iterable,
      raises before any record. */
  function LoadFromData(homeData: Json, enums: EnumOracles): (r: Loading)
    ensures |r.names| == |r.effects|
    ensures !IsDict(homeData) ==> r == Loading([], [], Some(AttributeError))
    ensures IsDict(homeData) && Lookup(homeData.fields, "custom_effects").None? ==> r == Loading([], [], None)
  {
    match Get(homeData, "custom_effects", JArr([]))
    case Err(e) => Loading([], [], Some(e))
    case Ok(list) =>
      match Elements(list)
      case Err(e) => Loading([], [], Some(e))
      case Ok(items) => LoadAll(items, enums)
  }

  /** The load `l` after the names and effects already appended. */
  function After(names: seq<Json>, effects: seq<PreviewEffect>, l: Loading): Loading {
    Loading(names + l.names, effects + l.effects, l.error)
  }

  lemma AfterNothing(l: Loading)
    ensures After([], [], l) == l
  {
    assert [] + l.names == l.names && [] + l.effects == l.effects;
  }

  lemma AfterBuilt(names: seq<Json>, effects: seq<PreviewEffect>, name: Json, effect: PreviewEffect, l: Loading)
    ensures After(names, effects, Loading([name] + l.names, [effect] + l.effects, l.error)) ==
      After(names + [name], effects + [effect], l)
  {
    assert names + ([name] + l.names) == names + [name] + l.names;
    assert effects + ([effect] + l.effects) == effects + [effect] + l.effects;
  }

  /** The load of `items[i..]` unfolded once. */
  lemma LoadAllStep(items: seq<Json>, i: int, enums: EnumOracles)
    requires 0 <= i < |items|
    ensures var rest := LoadAll(items[i + 1..], enums);
      LoadAll(items[i..], enums) == match Verdict(items[i], enums)
        case Skipped => rest
        case Raised(e) => Loading([], [], Some(e))
        case Built(name, effect) => Loading([name] + rest.names, [effect] + rest.effects, rest.error)
  {
    assert items[i..][1..] == items[i + 1..];
  }

  /** One pass of the loop body of `_load_effects_from_data`. */
  method RecordVerdict(effectData: Json, enums: EnumOracles) returns (v: EffectVerdict)
    ensures v == Verdict(effectData, enums)
  {
    if !IsDict(effectData) {
      return Raised(AttributeError);
    }
    var name := Get(effectData, "name", JStr("")).value;
    if !Truthy(name) || !Truthy(Get(effectData, "state", JBool(true)).value) {
      return Skipped;
    }
    var preview := CreatePreviewEffect(effectData, enums);
    if preview.Ok? {
      return Built(name, preview.value);
    } else if Caught(preview.error) {
      return Skipped;
    } else {
      return Raised(preview.error);
    }
  }

  /** `CustomEffectManager` over a home-config store. */
  class CustomEffectManager {
    var previewEffects: seq<PreviewEffect>
    var effectNames: seq<Json>
    const storage: HomeConfigStore

    /** The names list and the effects list have the same length. */
    predicate Valid()
      reads this
    {
      |previewEffects| == |effectNames|
    }

    constructor (storage: HomeConfigStore)
      ensures Valid() && previewEffects == [] && effectNames == [] && this.storage == storage
    {
      previewEffects := [];
      effectNames := [];
      this.storage := storage;
    }

    /** `async_load_effects`: a falsy stored config loads nothing; otherwise the document is
        loaded, and an exception that escapes the loop is answered. */
    method LoadEffects(enums: EnumOracles) returns (raised: Option<PyError>)
      requires Valid()
      modifies this
      ensures Valid()
      ensures !Truthy(storage.LoadConfig()) ==>
        raised == None && effectNames == old(effectNames) && previewEffects == old(previewEffects)
      ensures Truthy(storage.LoadConfig()) ==>
        var l := LoadFromData(storage.LoadConfig(), enums);
        && effectNames == old(effectNames) + l.names
        && previewEffects == old(previewEffects) + l.effects
        && raised == l.error
    {
      var configData := storage.LoadConfig();
      if Truthy(configData) {
        raised := LoadEffectsFromData(configData, enums);
      } else {
        raised := None;
      }
    }

    /** `_load_effects_from_data`: appends each loaded record's name and effect after the
        ones already loaded, which stay as they were. */
    method LoadEffectsFromData(homeData: Json, enums: EnumOracles) returns (raised: Option<PyError>)
      requires Valid()
      modifies this
      ensures Valid()
      ensures var l := LoadFromData(homeData, enums);
        && effectNames == old(effectNames) + l.names
        && previewEffects == old(previewEffects) + l.effects
        && raised == l.error
    {
      var customEffects := Get(homeData, "custom_effects", JArr([]));
      if customEffects.Err? {
        return Some(customEffects.error);
      }
      var elements := Elements(customEffects.value);
      if elements.Err? {
        return Some(elements.error);
      }
      raised := AppendRecords(elements.value, enums);
    }

    /** The `for effect_data in custom_effects_data` loop. */
    method AppendRecords(items: seq<Json>, enums: EnumOracles) returns (raised: Option<PyError>)
      requires Valid()
      modifies this
      ensures Valid()
      ensures var l := LoadAll(items, enums);
        && effectNames == old(effectNames) + l.names
        && previewEffects == old(previewEffects) + l.effects
        && raised == l.error
    {
      ghost var doneNames: seq<Json> := [];
      ghost var doneEffects: seq<PreviewEffect> := [];
      var i := 0;
      assert items[0..] == items;
      AfterNothing(LoadAll(items, enums));
      while i < |items|
        invariant 0 <= i <= |items|
        invariant effectNames == old(effectNames) + doneNames
        invariant previewEffects == old(previewEffects) + doneEffects
        invariant LoadAll(items, enums) == After(doneNames, doneEffects, LoadAll(items[i..], enums))
      {
        var v := RecordVerdict(items[i], enums);
        LoadAllStep(items, i, enums);
        if v.Raised? {
          assert After(doneNames, doneEffects, Loading([], [], Some(v.error))) == Loading(doneNames, doneEffects, Some(v.error));
          return Some(v.error);
        }
        if v.Built? {
          AfterBuilt(doneNames, doneEffects, v.name, v.effect, LoadAll(items[i + 1..], enums));
          assert effectNames + [v.name] == old(effectNames) + (doneNames + [v.name]);
          assert previewEffects + [v.effect] == old(previewEffects) + (doneEffects + [v.effect]);
          previewEffects := previewEffects + [v.effect];
          effectNames := effectNames + [v.name];
          doneNames := doneNames + [v.name];
          doneEffects := doneEffects + [v.effect];
        }
        i := i + 1;
      }
      assert items[i..] == [];
      assert After(doneNames, doneEffects, Loading([], [], None)) == Loading(doneNames, doneEffects, None);
      return None;
    }

    /** `get_effect_names`: a copy; sequences are values, so the caller cannot reach the
        manager's list through it. */
    function EffectNames(): (names: seq<Json>)
      reads this
      ensures |names| == |effectNames| && forall k :: 0 <= k < |names| ==> names[k] == effectNames[k]
    {
      effectNames
    }

    /** `get_preview_effects`: a copy, likewise. */
    function PreviewEffects(): (effects: seq<PreviewEffect>)
      reads this
      ensures |effects| == |previewEffects| && forall k :: 0 <= k < |effects| ==> effects[k] == previewEffects[k]
    {
      previewEffects
    }
  }
}
