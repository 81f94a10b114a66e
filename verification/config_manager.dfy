/** The layered configuration resolver of the `ConfigManager` class.

    The resolver keeps one resolved key -> value view. `loadProperties` rebuilds
    the view by overlaying ranked layers, lowest first:
      1. the bundled default properties (always there, possibly empty);
      2. the bundled custom properties, when that resource exists;
      3. the properties file whose path is the value of the system property
         named by `CONFIG_FILE_NAME_SYSTEM_PROPERTY`, when set and the file exists.
    `getProperty` looks at a system property of the same name first, on every
    call, then at the view, and otherwise answers `null`.
    `loadTestProperties` rebuilds the view from the test default and test
    custom pair only.

    Reading resources, files and system properties is outside the model: each
    source arrives as an already-parsed layer, and the process-wide system
    properties are a map passed to every call that reads them.
 */
module Config {
  import opened Wrappers

  /** One parsed properties source. */
  type Layer = map<string, string>

  /** An optional source: missing, parsed, or present but unreadable. */
  datatype Resource = Absent | Present(props: Layer) | Unreadable

  /** The resources bundled with the system. `configFileProperty` is the name
      held by `CONFIG_FILE_NAME_SYSTEM_PROPERTY`; ConfigManager.java, where its
      literal is defined, is not part of this model. */
  datatype Bundle = Bundle(
    defaults: Layer,
    custom: Resource,
    testDefaults: Layer,
    testCustom: Resource,
    configFileProperty: string)

  /** The process around the resolver: its system properties and the files
      that can be opened by path. A path missing from `files` and a path
      mapped to `Absent` both mean that no file is there. */
  datatype Environment = Environment(
    systemProperties: map<string, string>,
    files: map<string, Resource>)

  /** Why a rebuild of the view was abandoned. */
  datatype LoadError =
    | UnreadableCustom
    | UnreadableTestCustom
    | UnreadableConfigFile(path: string)

  // ---------------------------------------------------------------------------
  // Overlaying layers
  // ---------------------------------------------------------------------------

  /** `Properties.load` into an existing table, which is map union with
      `top` winning: a key reads from `top` when `top` has it, and from
      `base` otherwise. */
  function Overlay(base: Layer, top: Layer): (r: Layer)
    ensures forall k :: Lookup(r, k) == if k in top then Lookup(top, k) else Lookup(base, k)
  {
    base + top
  }

  /** Overlay a ranked list of layers, lowest precedence first, onto an empty table. */
  function Merge(layers: seq<Layer>): Layer {
    if |layers| == 0 then map[]
    else Overlay(Merge(layers[..|layers| - 1]), layers[|layers| - 1])
  }

  /** A key is in the merged view exactly when some layer defines it. */
  lemma {:induction false} MergeKeys(layers: seq<Layer>, key: string)
    ensures key in Merge(layers) <==> exists i :: 0 <= i < |layers| && key in layers[i]
    decreases |layers|
  {
    if |layers| > 0 {
      var lower := layers[..|layers| - 1];
      MergeKeys(lower, key);
      if key in Merge(layers) && key !in layers[|layers| - 1] {
        var i :| 0 <= i < |lower| && key in lower[i];
        assert key in layers[i];
      }
      forall i | 0 <= i < |lower| && key in lower[i]
        ensures key in Merge(layers)
      {
        assert lower[i] == layers[i];
      }
    }
  }

  /** Precedence: the merged view holds, for each key, the value of the
      highest-ranked layer that defines it. */
  lemma {:induction false} MergePrecedence(layers: seq<Layer>, key: string, i: nat)
    requires i < |layers| && key in layers[i]
    requires forall j :: i < j < |layers| ==> key !in layers[j]
    ensures key in Merge(layers) && Merge(layers)[key] == layers[i][key]
    decreases |layers|
  {
    if i < |layers| - 1 {
      var lower := layers[..|layers| - 1];
      assert lower[i] == layers[i];
      MergePrecedence(lower, key, i);
    }
  }

  /** The value the highest-ranked layer defining `key` gives it, searching
      from the top down; `None` when no layer defines it. */
  function Topmost(layers: seq<Layer>, key: string): (r: Option<string>)
    ensures r.None? <==> forall i :: 0 <= i < |layers| ==> key !in layers[i]
    ensures r.Some? ==> exists i :: 0 <= i < |layers| && key in layers[i] && layers[i][key] == r.value
  {
    if |layers| == 0 then None
    else if key in layers[|layers| - 1] then Some(layers[|layers| - 1][key])
    else
      var r := Topmost(layers[..|layers| - 1], key);
      assert forall i :: 0 <= i < |layers| - 1 ==> layers[..|layers| - 1][i] == layers[i];
      r
  }

  /** Overlay an optional layer onto `target`; `None` leaves it as it is. */
  function OverlayOptional(target: Layer, extra: Option<Layer>): Layer {
    match extra
    case None => target
    case Some(top) => Overlay(target, top)
  }

  /** An optional layer as a ranked list of zero or one layer. */
  function Ranked(extra: Option<Layer>): seq<Layer> {
    match extra
    case None => []
    case Some(top) => [top]
  }

  /** Merging an optional layer on top overlays it onto the merge of the rest. */
  lemma {:induction false} MergeSnoc(layers: seq<Layer>, top: Option<Layer>)
    ensures Merge(layers + Ranked(top)) == OverlayOptional(Merge(layers), top)
  {
    if top.None? {
      assert layers + Ranked(top) == layers;
    } else {
      assert (layers + Ranked(top))[..|layers|] == layers;
    }
  }

  /** Looking a key up in the merged view is the top-down search of the layers. */
  lemma {:induction false} MergeLookup(layers: seq<Layer>, key: string)
    ensures Lookup(Merge(layers), key) == Topmost(layers, key)
    decreases |layers|
  {
    if |layers| > 0 {
      MergeLookup(layers[..|layers| - 1], key);
    }
  }

  /** A plain lookup in one table: `Properties.getProperty` without any override. */
  function Lookup(view: Layer, key: string): (r: Option<string>)
    ensures r.Some? <==> key in view
    ensures r.Some? ==> r.value == view[key]
  {
    if key in view then Some(view[key]) else None
  }

  // ---------------------------------------------------------------------------
  // The layer loaders
  // ---------------------------------------------------------------------------

  /** The optional resource as a layer that may be missing. */
  function OptionalLayer(res: Resource, error: LoadError): Result<Option<Layer>, LoadError> {
    match res
    case Absent => Success(None)
    case Present(props) => Success(Some(props))
    case Unreadable => Failure(error)
  }

  /** The file named by the config-file system property, when that property
      is set; a path with no file behind it is the same as an unset property. */
  function ConfigFile(b: Bundle, env: Environment): (r: Result<Option<Layer>, LoadError>)
    ensures b.configFileProperty !in env.systemProperties ==> r == Success(None)
    ensures b.configFileProperty in env.systemProperties ==>
      var path := env.systemProperties[b.configFileProperty];
      && (path !in env.files ==> r == Success(None))
      && (path in env.files && env.files[path].Absent? ==> r == Success(None))
      && (path in env.files && env.files[path].Unreadable? ==> r == Failure(UnreadableConfigFile(path)))
      && (path in env.files && env.files[path].Present? ==> r == Success(Some(env.files[path].props)))
  {
    if b.configFileProperty !in env.systemProperties then Success(None)
    else
      var path := env.systemProperties[b.configFileProperty];
      if path !in env.files then Success(None)
      else OptionalLayer(env.files[path], UnreadableConfigFile(path))
  }

  /** `loadDefaultPropertiesFoundInResource(target)`. */
  function LoadDefaultPropertiesFoundInResource(target: Layer, b: Bundle): (r: Layer)
    ensures forall k :: k in b.defaults ==> k in r && r[k] == b.defaults[k]
    ensures forall k :: k in target && k !in b.defaults ==> k in r && r[k] == target[k]
    ensures r.Keys == target.Keys + b.defaults.Keys
  {
    Overlay(target, b.defaults)
  }

  /** `loadCustomPropertiesFoundInResource(target)`: a missing custom resource
      leaves `target` as it is. */
  function LoadCustomPropertiesFoundInResource(target: Layer, b: Bundle): (r: Result<Layer, LoadError>)
    ensures b.custom.Absent? ==> r == Success(target)
    ensures b.custom.Unreadable? ==> r == Failure(UnreadableCustom)
    ensures b.custom.Present? ==> r.Success? && r.value.Keys == target.Keys + b.custom.props.Keys
    ensures b.custom.Present? ==> forall k :: k in b.custom.props ==> r.value[k] == b.custom.props[k]
    ensures b.custom.Present? ==>
      forall k :: k in target && k !in b.custom.props ==> r.value[k] == target[k]
  {
    var extra :- OptionalLayer(b.custom, UnreadableCustom);
    Success(OverlayOptional(target, extra))
  }

  /** `loadCustomPropertiesProvidedViaSystemProperty(target)`. */
  function LoadCustomPropertiesProvidedViaSystemProperty(target: Layer, b: Bundle, env: Environment)
    : (r: Result<Layer, LoadError>)
    ensures b.configFileProperty !in env.systemProperties ==> r == Success(target)
    ensures b.configFileProperty in env.systemProperties ==>
      var path := env.systemProperties[b.configFileProperty];
      && (path !in env.files ==> r == Success(target))
      && (path in env.files ==>
            match env.files[path]
            case Absent => r == Success(target)
            case Unreadable => r == Failure(UnreadableConfigFile(path))
            case Present(file) =>
              && r.Success?
              && r.value.Keys == target.Keys + file.Keys
              && (forall k :: k in file ==> r.value[k] == file[k])
              && (forall k :: k in target && k !in file ==> r.value[k] == target[k]))
    ensures r.Success? ==> target.Keys <= r.value.Keys
  {
    var extra :- ConfigFile(b, env);
    Success(OverlayOptional(target, extra))
  }

  // ---------------------------------------------------------------------------
  // Rebuilding the view
  // ---------------------------------------------------------------------------

  /** The production layers, lowest precedence first. */
  function ProductionLayers(b: Bundle, env: Environment): (r: Result<seq<Layer>, LoadError>)
    ensures r.Success? ==> 1 <= |r.value| <= 3 && r.value[0] == b.defaults
  {
    var custom :- OptionalLayer(b.custom, UnreadableCustom);
    var file :- ConfigFile(b, env);
    Success([b.defaults] + Ranked(custom) + Ranked(file))
  }

  /** The test layers, lowest precedence first. Neither the production layers
      nor the environment take part. */
  function TestLayers(b: Bundle): (r: Result<seq<Layer>, LoadError>)
    ensures r.Success? ==> 1 <= |r.value| <= 2 && r.value[0] == b.testDefaults
  {
    var custom :- OptionalLayer(b.testCustom, UnreadableTestCustom);
    Success([b.testDefaults] + Ranked(custom))
  }

  /** The view `loadProperties` builds, off to the side: defaults, then custom,
      then the config file, each loaded into the table the previous one left. */
  function BuildView(b: Bundle, env: Environment): (r: Result<Layer, LoadError>)
    ensures r.Failure? <==> b.custom.Unreadable? || ConfigFile(b, env).Failure?
    ensures b.custom.Unreadable? ==> r == Failure(UnreadableCustom)
    ensures !b.custom.Unreadable? && ConfigFile(b, env).Failure? ==> r == Failure(ConfigFile(b, env).error)
    ensures r.Success? ==> b.defaults.Keys <= r.value.Keys
  {
    var v1 := LoadDefaultPropertiesFoundInResource(map[], b);
    var v2 :- LoadCustomPropertiesFoundInResource(v1, b);
    LoadCustomPropertiesProvidedViaSystemProperty(v2, b, env)
  }

  /** The view `loadTestProperties` builds: the test defaults, with the test
      custom properties written over them when that resource exists. */
  function BuildTestView(b: Bundle): (r: Result<Layer, LoadError>)
    ensures b.testCustom.Unreadable? ==> r == Failure(UnreadableTestCustom)
    ensures b.testCustom.Absent? ==> r == Success(b.testDefaults)
    ensures b.testCustom.Present? ==> r == Success(Overlay(b.testDefaults, b.testCustom.props))
  {
    var d := b.testDefaults;
    assert Merge([d]) == d by {
      assert [d][..0] == [];
      assert map[] + d == d;
    }
    assert b.testCustom.Present? ==> ([d] + [b.testCustom.props])[..1] == [d];
    var layers :- TestLayers(b);
    Success(Merge(layers))
  }

  /** The step-by-step loading is the merge of the production layers, and it
      fails exactly when one of them cannot be read. */
  lemma {:induction false} BuildViewMergesLayers(b: Bundle, env: Environment)
    ensures BuildView(b, env).Success? <==> ProductionLayers(b, env).Success?
    ensures BuildView(b, env).Success? ==>
      BuildView(b, env).value == Merge(ProductionLayers(b, env).value)
  {
    var custom := OptionalLayer(b.custom, UnreadableCustom);
    var file := ConfigFile(b, env);
    if custom.Success? && file.Success? {
      var d := [b.defaults];
      assert Merge(d) == b.defaults by {
        assert d[..0] == [];
        assert map[] + b.defaults == b.defaults;
      }
      MergeSnoc(d, custom.value);
      MergeSnoc(d + Ranked(custom.value), file.value);
    }
  }

  // ---------------------------------------------------------------------------
  // Reading the view
  // ---------------------------------------------------------------------------

  /** `getProperty(key)`: a system property of the same name, then the view,
      then `null`. The system properties act as one more layer, read on every
      call, ranked above the view. */
  function Resolve(view: Layer, system: map<string, string>, key: string): (r: Option<string>)
    ensures r == Topmost([view, system], key)
    ensures r == Lookup(Merge([view, system]), key)
  {
    assert [view, system][..1] == [view];
    assert [view][..0] == [];
    MergeLookup([view, system], key);
    if key in system then Some(system[key]) else Lookup(view, key)
  }

  /** `getProperty(key, default)`: as `getProperty(key)`, with the caller's
      default acting as a lowest layer that holds only `key`. */
  function ResolveOr(view: Layer, system: map<string, string>, key: string, default: string): (r: string)
    ensures Topmost([map[key := default], view, system], key) == Some(r)
  {
    var layers := [map[key := default], view, system];
    assert layers[..2] == [map[key := default], view];
    assert layers[..2][..1] == [map[key := default]];
    assert Topmost([map[key := default]], key) == Some(default);
    assert Topmost(layers[..2], key) == Some(Lookup(view, key).GetOr(default));
    Resolve(view, system, key).GetOr(default)
  }

  /** The value a key must resolve to after `loadProperties`, highest
      precedence first: system property, the file the config-file property
      names, custom, defaults. */
  function Expected(b: Bundle, env: Environment, key: string): Option<string> {
    var sys := env.systemProperties;
    var cfp := b.configFileProperty;
    if key in sys then Some(sys[key])
    else if cfp in sys && sys[cfp] in env.files && env.files[sys[cfp]].Present?
         && key in env.files[sys[cfp]].props
    then Some(env.files[sys[cfp]].props[key])
    else if b.custom.Present? && key in b.custom.props then Some(b.custom.props[key])
    else if key in b.defaults then Some(b.defaults[key])
    else None
  }

  /** Precedence law: after a successful rebuild every key resolves to the
      value of the highest-precedence source that defines it, and to `null`
      when none does. */
  lemma {:induction false} ReloadPrecedence(b: Bundle, env: Environment, key: string)
    requires BuildView(b, env).Success?
    ensures Resolve(BuildView(b, env).value, env.systemProperties, key) == Expected(b, env, key)
  {
    BuildViewMergesLayers(b, env);
    var layers := ProductionLayers(b, env).value;
    MergeLookup(layers, key);
    TopmostOfProduction(b, env, key);
  }

  lemma {:induction false} TopmostOfProduction(b: Bundle, env: Environment, key: string)
    requires ProductionLayers(b, env).Success?
    ensures key !in env.systemProperties ==>
      Topmost(ProductionLayers(b, env).value, key) == Expected(b, env, key)
  {
    var c := Ranked(OptionalLayer(b.custom, UnreadableCustom).value);
    var f := Ranked(ConfigFile(b, env).value);
    var layers := [b.defaults] + c + f;
    if |f| == 1 {
      assert layers[..|layers| - 1] == [b.defaults] + c;
    } else {
      assert layers == [b.defaults] + c;
    }
    if |c| == 1 {
      assert ([b.defaults] + c)[..1] == [b.defaults];
    } else {
      assert [b.defaults] + c == [b.defaults];
    }
  }

  /** Absence law: a key no source defines resolves to `null`, and the
      two-argument form gives back exactly the caller's default. */
  lemma {:induction false} AbsentKey(b: Bundle, env: Environment, key: string, default: string)
    requires BuildView(b, env).Success?
    requires key !in env.systemProperties && key !in b.defaults
    requires b.custom.Present? ==> key !in b.custom.props
    requires var sys := env.systemProperties;
      b.configFileProperty in sys && sys[b.configFileProperty] in env.files
      && env.files[sys[b.configFileProperty]].Present?
      ==> key !in env.files[sys[b.configFileProperty]].props
    ensures Resolve(BuildView(b, env).value, env.systemProperties, key) == None
    ensures ResolveOr(BuildView(b, env).value, env.systemProperties, key, default) == default
  {
    ReloadPrecedence(b, env, key);
  }

  /** Isolation: the test view holds exactly the keys of the test layers, with
      the test custom value winning over the test default one; no production
      layer and nothing in the environment contributes. */
  lemma {:induction false} TestProfileIsolation(b: Bundle, key: string)
    requires BuildTestView(b).Success?
    ensures key in BuildTestView(b).value <==>
      key in b.testDefaults || (b.testCustom.Present? && key in b.testCustom.props)
    ensures b.testCustom.Present? && key in b.testCustom.props ==>
      BuildTestView(b).value[key] == b.testCustom.props[key]
    ensures key in b.testDefaults && !(b.testCustom.Present? && key in b.testCustom.props) ==>
      BuildTestView(b).value[key] == b.testDefaults[key]
  {
    var layers := TestLayers(b).value;
    MergeLookup(layers, key);
    if |layers| == 2 {
      assert layers[..1] == [b.testDefaults];
    }
  }

  /** The test view depends on the test layers alone. */
  lemma {:induction false} TestProfileIgnoresProduction(b: Bundle, b': Bundle)
    requires b.testDefaults == b'.testDefaults && b.testCustom == b'.testCustom
    ensures BuildTestView(b) == BuildTestView(b')
  {
  }

  /** A config-file property naming a path with no file behind it is not an
      error: the rebuild is the one an unset property gives. */
  lemma {:induction false} MissingConfigFileIsSkipped(b: Bundle, env: Environment)
    requires b.configFileProperty in env.systemProperties
    requires env.systemProperties[b.configFileProperty] !in env.files
    ensures BuildView(b, env) ==
      BuildView(b, env.(systemProperties := env.systemProperties - {b.configFileProperty}))
  {
  }

  /** An unreadable config file aborts `loadProperties`, reporting its path. */
  lemma {:induction false} UnreadableConfigFileAborts(b: Bundle, env: Environment, path: string)
    requires !b.custom.Unreadable?
    requires b.configFileProperty in env.systemProperties
    requires env.systemProperties[b.configFileProperty] == path
    requires path in env.files && env.files[path].Unreadable?
    ensures BuildView(b, env) == Failure(UnreadableConfigFile(path))
  {
  }

  // ---------------------------------------------------------------------------
  // Publishing a rebuilt view
  // ---------------------------------------------------------------------------

  /** The view after `loadProperties`: the merge of the production layers,
      or the previous view when one of them could not be read (all or nothing). */
  function Reload(view: Layer, b: Bundle, env: Environment): (r: Layer)
    ensures ProductionLayers(b, env).Success? ==> r == Merge(ProductionLayers(b, env).value)
    ensures ProductionLayers(b, env).Failure? ==> r == view
  {
    BuildViewMergesLayers(b, env);
    match BuildView(b, env)
    case Success(v) => v
    case Failure(_) => view
  }

  /** The view after `loadTestProperties`: the test defaults, with the test
      custom properties written over them when that resource exists; the
      previous view when the test custom resource cannot be read. */
  function ReloadTest(view: Layer, b: Bundle): (r: Layer)
    ensures b.testCustom.Unreadable? ==> r == view
    ensures b.testCustom.Absent? ==> r == b.testDefaults
    ensures b.testCustom.Present? ==> r == Overlay(b.testDefaults, b.testCustom.props)
  {
    match BuildTestView(b)
    case Success(v) => v
    case Failure(_) => view
  }

  /** Reloading twice with unchanged sources gives the view one reload gives,
      and a successful reload does not depend on what was there before. */
  lemma {:induction false} ReloadIdempotent(view: Layer, other: Layer, b: Bundle, env: Environment)
    ensures Reload(Reload(view, b, env), b, env) == Reload(view, b, env)
    ensures BuildView(b, env).Success? ==> Reload(view, b, env) == Reload(other, b, env)
  {
  }

  /** Override without reload: setting a system property changes the next
      lookup of that key at once, whatever the view holds; clearing it gives
      back the view's value; no other key is affected. */
  lemma {:induction false} SystemPropertyOverride(view: Layer, system: map<string, string>, key: string, value: string, other: string)
    requires other != key
    ensures Resolve(view, system[key := value], key) == Some(value)
    ensures Resolve(view, system - {key}, key) == Lookup(view, key)
    ensures Resolve(view, system[key := value], other) == Resolve(view, system, other)
    ensures Resolve(view, system - {key}, other) == Resolve(view, system, other)
  {
  }

  // ---------------------------------------------------------------------------
  // The process-wide instance
  // ---------------------------------------------------------------------------

  /** The single resolver instance. Its one field is replaced wholesale by
      `LoadProperties` and `LoadTestProperties`, never updated key by key. */
  class ConfigManager {
    var view: Layer

    /** First access through `getInstance()`: construction performs an
        initial `loadProperties`, so a new instance can be queried at once. */
    constructor (b: Bundle, env: Environment)
      ensures view == Reload(map[], b, env)
    {
      view := Reload(map[], b, env);
    }

    /** `loadProperties()`: rebuild from the production layers. On an
        unreadable source the error is reported and the old view stays. */
    method LoadProperties(b: Bundle, env: Environment) returns (error: Option<LoadError>)
      modifies this
      ensures view == Reload(old(view), b, env)
      ensures error.Some? <==> BuildView(b, env).Failure?
      ensures error.Some? ==> BuildView(b, env).Failure? && error.value == BuildView(b, env).error
    {
      match BuildView(b, env)
      case Success(v) =>
        view := v;
        error := None;
      case Failure(e) =>
        error := Some(e);
    }

    /** `loadTestProperties()`: rebuild from the test layers only. */
    method LoadTestProperties(b: Bundle) returns (error: Option<LoadError>)
      modifies this
      ensures view == ReloadTest(old(view), b)
      ensures error.Some? <==> BuildTestView(b).Failure?
      ensures error.Some? ==> BuildTestView(b).Failure? && error.value == BuildTestView(b).error
    {
      match BuildTestView(b)
      case Success(v) =>
        view := v;
        error := None;
      case Failure(e) =>
        error := Some(e);
    }

    /** `getProperty(key)`, reading the system properties current at the call. */
    method GetProperty(system: map<string, string>, key: string) returns (r: Option<string>)
      ensures key in system ==> r == Some(system[key])
      ensures key !in system ==> r == Lookup(view, key)
    {
      r := Resolve(view, system, key);
    }

    /** `getProperty(key, default)`. */
    method GetPropertyOrDefault(system: map<string, string>, key: string, default: string) returns (r: string)
      ensures key in system ==> r == system[key]
      ensures key !in system && key in view ==> r == view[key]
      ensures key !in system && key !in view ==> r == default
    {
      r := ResolveOr(view, system, key, default);
    }
  }
}


/** The scenarios the `ConfigManager` tests walk through, stated over any
    bundle and environment that agree with the test resources. */
module ConfigScenarios {
  import opened Wrappers
  import opened Config

  /** The key every scenario reads. */
  const SourceKey := "colfusion.properties.source"

  /** Loading the bundled defaults alone into an empty table gives the source
      key its default value. */
  lemma {:induction false} DefaultLayerAlone(b: Bundle)
    requires SourceKey in b.defaults && b.defaults[SourceKey] == "default"
    ensures Lookup(LoadDefaultPropertiesFoundInResource(map[], b), SourceKey) == Some("default")
  {
  }

  /** With no config file and no system property, a rebuilt view resolves the
      source key to the custom value when the custom resource exists and to
      the default value otherwise. */
  lemma {:induction false} CustomOverridesDefault(b: Bundle, env: Environment)
    requires SourceKey in b.defaults && b.defaults[SourceKey] == "default"
    requires !b.custom.Unreadable?
    requires b.custom.Present? ==> SourceKey in b.custom.props && b.custom.props[SourceKey] == "custom in main"
    requires b.configFileProperty !in env.systemProperties && SourceKey !in env.systemProperties
    ensures BuildView(b, env).Success?
    ensures Resolve(BuildView(b, env).value, env.systemProperties, SourceKey)
         == Some(if b.custom.Present? then "custom in main" else "default")
  {
    ReloadPrecedence(b, env, SourceKey);
  }

  /** Loading the layer named by the config-file system property into a
      table puts the file's values into it. */
  lemma {:induction false} ConfigFileLayerLoads(target: Layer, b: Bundle, env: Environment, path: string, file: Layer)
    requires b.configFileProperty in env.systemProperties
    requires env.systemProperties[b.configFileProperty] == path
    requires path in env.files && env.files[path] == Present(file)
    ensures LoadCustomPropertiesProvidedViaSystemProperty(target, b, env) == Success(Overlay(target, file))
    ensures forall k :: k in file ==>
      Lookup(LoadCustomPropertiesProvidedViaSystemProperty(target, b, env).value, k) == Some(file[k])
  {
  }

  /** After a rebuild with the config-file system property set, the file's
      value beats both bundled layers. */
  lemma {:induction false} ConfigFileBeatsBundled(b: Bundle, env: Environment, path: string, file: Layer)
    requires !b.custom.Unreadable?
    requires b.configFileProperty in env.systemProperties
    requires env.systemProperties[b.configFileProperty] == path
    requires path in env.files && env.files[path] == Present(file)
    requires SourceKey in file && SourceKey !in env.systemProperties
    ensures BuildView(b, env).Success?
    ensures Resolve(BuildView(b, env).value, env.systemProperties, SourceKey) == Some(file[SourceKey])
  {
    ReloadPrecedence(b, env, SourceKey);
  }

  /** After `loadTestProperties` the source key resolves to the test custom
      value when that resource exists and to the test default value
      otherwise, whatever the production layers and the previous view hold. */
  lemma {:induction false} TestPropertiesScenario(view: Layer, b: Bundle, system: map<string, string>)
    requires SourceKey in b.testDefaults && b.testDefaults[SourceKey] == "test default properties"
    requires !b.testCustom.Unreadable?
    requires b.testCustom.Present? ==>
      SourceKey in b.testCustom.props && b.testCustom.props[SourceKey] == "test custom properties"
    requires SourceKey !in system
    ensures Resolve(ReloadTest(view, b), system, SourceKey)
         == Some(if b.testCustom.Present? then "test custom properties" else "test default properties")
  {
    TestProfileIsolation(b, SourceKey);
  }
}
