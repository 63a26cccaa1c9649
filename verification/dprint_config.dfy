/** The parts of the host library's configuration support (dprint_core's
    `configuration` module) that the plugin relies on: the raw key/value map,
    diagnostics, the global configuration and its recommended values, and the
    contracts of `get_value` and `get_unknown_property_diagnostics`.
    The library's own code is not part of this model; what it does is stated
    here as the contract the plugin depends on. */
module DprintConfig {
  import opened Wrappers

  type uint8 = x: int | 0 <= x < 0x100
  type uint32 = x: int | 0 <= x < 0x1_0000_0000

  /** An untyped configuration value as the host hands it over. */
  datatype RawValue = StringValue(s: string) | NumberValue(n: int) | BoolValue(b: bool)

  /** `ConfigKeyMap`: raw configuration, keys unique. */
  type ConfigKeyMap = map<string, RawValue>

  datatype DiagnosticKind =
    | InvalidValue     // a known key whose value did not convert
    | UnknownProperty  // a key nothing consumed

  /** `ConfigurationDiagnostic`; the message text is reduced to its kind. */
  datatype Diagnostic = Diagnostic(propertyName: string, kind: DiagnosticKind)

  /** The host's newline policy. */
  datatype NewLineKind = Auto | LineFeed | CarriageReturnLineFeed | System

  /** `GlobalConfiguration`: the formatter-agnostic settings, each optional. */
  datatype GlobalConfiguration = GlobalConfiguration(
    lineWidth: Option<uint32>,
    useTabs: Option<bool>,
    indentWidth: Option<uint8>,
    newLineKind: Option<NewLineKind>)

  /** The shape of `RECOMMENDED_GLOBAL_CONFIGURATION`: every setting present. */
  datatype RecommendedGlobal = RecommendedGlobal(
    lineWidth: uint32,
    useTabs: bool,
    indentWidth: uint8,
    newLineKind: NewLineKind)

  /** `RECOMMENDED_GLOBAL_CONFIGURATION`: a fixed value owned by the host
      library; the model does not depend on what it is. */
  const RecommendedGlobalConfiguration: RecommendedGlobal

  /** The value `get_value` yields for `key`: the parsed value when the key is
      present and converts, otherwise `fallback`. */
  function FieldValue<T>(config: ConfigKeyMap, key: string, fallback: T, parse: RawValue -> Option<T>): (v: T)
    ensures key !in config ==> v == fallback
    ensures key in config && parse(config[key]).Some? ==> v == parse(config[key]).value
    ensures key in config && parse(config[key]).None? ==> v == fallback
  {
    if key in config then parse(config[key]).GetOr(fallback) else fallback
  }

  /** The diagnostic `get_value` pushes for `key`: one `InvalidValue` entry when
      the key is present and does not convert, none otherwise. */
  function ValueDiagnostic<T>(config: ConfigKeyMap, key: string, parse: RawValue -> Option<T>): (ds: seq<Diagnostic>)
    ensures |ds| <= 1
    ensures ds != [] <==> key in config && parse(config[key]).None?
    ensures forall d :: d in ds <==> d == Diagnostic(key, InvalidValue) && key in config && parse(config[key]).None?
  {
    if key in config && parse(config[key]).None? then [Diagnostic(key, InvalidValue)] else []
  }

  /** `get_value(&mut config, key, fallback, &mut diagnostics)`: removes `key`,
      converts its value with `parse` (the target type's conversion), and on a
      failed conversion yields `fallback` and appends one diagnostic. */
  method GetValue<T>(config: ConfigKeyMap, key: string, fallback: T, parse: RawValue -> Option<T>,
                     diagnostics: seq<Diagnostic>)
    returns (value: T, config': ConfigKeyMap, diagnostics': seq<Diagnostic>)
    ensures config' == config - {key}
    ensures value == FieldValue(config, key, fallback, parse)
    ensures diagnostics' == diagnostics + ValueDiagnostic(config, key, parse)
  {
    value := fallback;
    diagnostics' := diagnostics;
    if key in config {
      var parsed := parse(config[key]);
      if parsed.Some? {
        value := parsed.value;
      } else {
        diagnostics' := diagnostics' + [Diagnostic(key, InvalidValue)];
      }
    }
    config' := config - {key};
  }

  /** `ds` reports every key of `keys` as an unknown property, once each, and
      nothing else. */
  ghost predicate ListsUnknownProperties(ds: seq<Diagnostic>, keys: set<string>)
  {
    && |ds| == |keys|
    && (forall i :: 0 <= i < |ds| ==> ds[i].kind == UnknownProperty && ds[i].propertyName in keys)
    && (forall k :: k in keys ==> Diagnostic(k, UnknownProperty) in ds)
    && (forall i, j :: 0 <= i < j < |ds| ==> ds[i].propertyName != ds[j].propertyName)
  }

  /** Reporting one more, not yet reported key keeps the listing exact. */
  lemma ListUnknownProperty(ds: seq<Diagnostic>, keys: set<string>, k: string)
    requires ListsUnknownProperties(ds, keys)
    requires k !in keys
    ensures ListsUnknownProperties(ds + [Diagnostic(k, UnknownProperty)], keys + {k})
  {
    var ds' := ds + [Diagnostic(k, UnknownProperty)];
    forall k' | k' in keys + {k}
      ensures Diagnostic(k', UnknownProperty) in ds'
    {
      if k' in keys {
        var i :| 0 <= i < |ds| && ds[i] == Diagnostic(k', UnknownProperty);
        assert ds'[i] == ds[i];
      } else {
        assert ds'[|ds|] == Diagnostic(k, UnknownProperty);
      }
    }
  }

  /** `get_unknown_property_diagnostics(config)`: one unknown-property
      diagnostic per key left in the map. */
  method UnknownPropertyDiagnostics(config: ConfigKeyMap) returns (ds: seq<Diagnostic>)
    ensures ListsUnknownProperties(ds, config.Keys)
  {
    ds := [];
    var remaining := config.Keys;
    ghost var done: set<string> := {};
    while remaining != {}
      invariant remaining !! done && remaining + done == config.Keys
      invariant ListsUnknownProperties(ds, done)
      decreases remaining
    {
      var k :| k in remaining;
      ListUnknownProperty(ds, done, k);
      ds := ds + [Diagnostic(k, UnknownProperty)];
      remaining := remaining - {k};
      done := done + {k};
    }
    assert done == config.Keys;
  }
}
