/** The plugin's configuration resolver (`StyluaPluginHandler::resolve_config`):
    nine known keys are read from the raw map in a fixed order, each with its
    own fallback layer; what is left over is reported as unknown. */
module PluginConfig {
  import opened Wrappers
  import opened DprintConfig
  import opened StyluaLib

  /** The plugin's resolved `Configuration`: every field holds a value. */
  datatype Configuration = Configuration(
    lineWidth: uint32,
    useTabs: bool,
    indentWidth: uint8,
    newLineKind: NewLineKind,
    verify: bool,
    quoteStyle: QuoteStyle,
    callParentheses: CallParenType,
    collapseSimpleStatement: CollapseSimpleStatement,
    sortRequires: bool)

  datatype FileMatchingInfo = FileMatchingInfo(fileExtensions: seq<string>, fileNames: seq<string>)

  /** `PluginResolveConfigurationResult`. */
  datatype ResolveResult = ResolveResult(
    config: Configuration,
    diagnostics: seq<Diagnostic>,
    fileMatching: FileMatchingInfo)

  /** The conversions `get_value` applies, one per target type (each type's
      `FromStr` applied to the raw value). They belong to the host library and
      the engine, so the resolver takes them as given. */
  datatype ValueParsers = ValueParsers(
    toUint32: RawValue -> Option<uint32>,
    toBool: RawValue -> Option<bool>,
    toUint8: RawValue -> Option<uint8>,
    toNewLineKind: RawValue -> Option<NewLineKind>,
    toQuoteStyle: RawValue -> Option<QuoteStyle>,
    toCallParenType: RawValue -> Option<CallParenType>,
    toCollapseSimpleStatement: RawValue -> Option<CollapseSimpleStatement>)

  /** The nine keys the resolver reads. */
  const KnownKeys: set<string> := {
    "lineWidth", "useTabs", "indentWidth", "newLineKind", "verify",
    "quoteStyle", "callParentheses", "collapseSimpleStatement", "sortRequires"}

  /** Each known key differs from the ones read before it. The sets are
      written as the resolver's ghost `consumed` set grows, one key at a time,
      so that the solver matches them without recomputing the unions. */
  lemma KnownKeysDistinct()
    ensures "useTabs" !in {} + {"lineWidth"}
    ensures "indentWidth" !in {} + {"lineWidth"} + {"useTabs"}
    ensures "newLineKind" !in {} + {"lineWidth"} + {"useTabs"} + {"indentWidth"}
    ensures "verify" !in {} + {"lineWidth"} + {"useTabs"} + {"indentWidth"} + {"newLineKind"}
    ensures "quoteStyle" !in {} + {"lineWidth"} + {"useTabs"} + {"indentWidth"} + {"newLineKind"} + {"verify"}
    ensures "callParentheses" !in {} + {"lineWidth"} + {"useTabs"} + {"indentWidth"} + {"newLineKind"} + {"verify"} + {"quoteStyle"}
    ensures "collapseSimpleStatement" !in {} + {"lineWidth"} + {"useTabs"} + {"indentWidth"} + {"newLineKind"} + {"verify"} + {"quoteStyle"} + {"callParentheses"}
    ensures "sortRequires" !in {} + {"lineWidth"} + {"useTabs"} + {"indentWidth"} + {"newLineKind"} + {"verify"} + {"quoteStyle"} + {"callParentheses"} + {"collapseSimpleStatement"}
  {
  }

  /** Consuming the nine keys one after the other, in the resolver's order,
      consumes exactly the known keys (the union is written in the same
      shape as in `KnownKeysDistinct`). */
  lemma ConsumedInOrder()
    ensures {} + {"lineWidth"} + {"useTabs"} + {"indentWidth"} + {"newLineKind"} + {"verify"}
      + {"quoteStyle"} + {"callParentheses"} + {"collapseSimpleStatement"} + {"sortRequires"} == KnownKeys
  {
  }

  /** Whether the value given for a known key converts to that key's type. */
  predicate Accepts(p: ValueParsers, key: string, v: RawValue)
  {
    if key == "lineWidth" then p.toUint32(v).Some?
    else if key == "useTabs" || key == "verify" || key == "sortRequires" then p.toBool(v).Some?
    else if key == "indentWidth" then p.toUint8(v).Some?
    else if key == "newLineKind" then p.toNewLineKind(v).Some?
    else if key == "quoteStyle" then p.toQuoteStyle(v).Some?
    else if key == "callParentheses" then p.toCallParenType(v).Some?
    else if key == "collapseSimpleStatement" then p.toCollapseSimpleStatement(v).Some?
    else true
  }

  /** The position of a known key in the resolver's reading order; 9 for any
      other key. */
  function KeyRank(key: string): nat
  {
    if key == "lineWidth" then 0
    else if key == "useTabs" then 1
    else if key == "indentWidth" then 2
    else if key == "newLineKind" then 3
    else if key == "verify" then 4
    else if key == "quoteStyle" then 5
    else if key == "callParentheses" then 6
    else if key == "collapseSimpleStatement" then 7
    else if key == "sortRequires" then 8
    else 9
  }

  /** `ds` names keys in strictly increasing reading order, all before
      position `bound`. */
  ghost predicate InKeyOrder(ds: seq<Diagnostic>, bound: nat)
  {
    && (forall i :: 0 <= i < |ds| ==> KeyRank(ds[i].propertyName) < bound)
    && (forall i, j :: 0 <= i < j < |ds| ==> KeyRank(ds[i].propertyName) < KeyRank(ds[j].propertyName))
  }

  /** The value diagnostics of the nine `get_value` calls, in call order. */
  function ValueDiagnostics(config: ConfigKeyMap, p: ValueParsers): (ds: seq<Diagnostic>)
    ensures |ds| <= 9
    ensures forall d :: d in ds ==> d.kind == InvalidValue && d.propertyName in config
  {
    ValueDiagnostic(config, "lineWidth", p.toUint32)
    + ValueDiagnostic(config, "useTabs", p.toBool)
    + ValueDiagnostic(config, "indentWidth", p.toUint8)
    + ValueDiagnostic(config, "newLineKind", p.toNewLineKind)
    + ValueDiagnostic(config, "verify", p.toBool)
    + ValueDiagnostic(config, "quoteStyle", p.toQuoteStyle)
    + ValueDiagnostic(config, "callParentheses", p.toCallParenType)
    + ValueDiagnostic(config, "collapseSimpleStatement", p.toCollapseSimpleStatement)
    + ValueDiagnostic(config, "sortRequires", p.toBool)
  }

  /** Reading a key that has not been consumed yet from what is left of
      `config` behaves as reading it from `config`; consuming it extends the
      consumed set. */
  lemma ReadUnconsumed<T>(config: ConfigKeyMap, consumed: set<string>, key: string,
                          fallback: T, parse: RawValue -> Option<T>)
    requires key !in consumed
    ensures FieldValue(config - consumed, key, fallback, parse) == FieldValue(config, key, fallback, parse)
    ensures ValueDiagnostic(config - consumed, key, parse) == ValueDiagnostic(config, key, parse)
    ensures (config - consumed) - {key} == config - (consumed + {key})
  {
  }

  /** The resolved configuration: each field from its key, else from its
      fallback layer. */
  function Resolved(config: ConfigKeyMap, global: GlobalConfiguration, p: ValueParsers): (c: Configuration)
    // global setting, else the recommended value
    ensures "lineWidth" !in config ==>
      c.lineWidth == global.lineWidth.GetOr(RecommendedGlobalConfiguration.lineWidth)
    ensures "useTabs" !in config ==>
      c.useTabs == global.useTabs.GetOr(RecommendedGlobalConfiguration.useTabs)
    ensures "indentWidth" !in config ==>
      c.indentWidth == global.indentWidth.GetOr(RecommendedGlobalConfiguration.indentWidth)
    ensures "newLineKind" !in config ==>
      c.newLineKind == global.newLineKind.GetOr(RecommendedGlobalConfiguration.newLineKind)
    // verification is off unless asked for
    ensures "verify" !in config ==> !c.verify
    // the engine's own defaults
    ensures "quoteStyle" !in config ==> c.quoteStyle == DefaultConfig.quoteStyle
    ensures "callParentheses" !in config ==> c.callParentheses == DefaultConfig.callParentheses
    ensures "collapseSimpleStatement" !in config ==>
      c.collapseSimpleStatement == DefaultConfig.collapseSimpleStatement
    ensures "sortRequires" !in config ==> c.sortRequires == DefaultConfig.sortRequiresEnabled
  {
    Configuration(
      FieldValue(config, "lineWidth", global.lineWidth.GetOr(RecommendedGlobalConfiguration.lineWidth), p.toUint32),
      FieldValue(config, "useTabs", global.useTabs.GetOr(RecommendedGlobalConfiguration.useTabs), p.toBool),
      FieldValue(config, "indentWidth", global.indentWidth.GetOr(RecommendedGlobalConfiguration.indentWidth), p.toUint8),
      FieldValue(config, "newLineKind", global.newLineKind.GetOr(RecommendedGlobalConfiguration.newLineKind), p.toNewLineKind),
      FieldValue(config, "verify", false, p.toBool),
      FieldValue(config, "quoteStyle", DefaultConfig.quoteStyle, p.toQuoteStyle),
      FieldValue(config, "callParentheses", DefaultConfig.callParentheses, p.toCallParenType),
      FieldValue(config, "collapseSimpleStatement", DefaultConfig.collapseSimpleStatement, p.toCollapseSimpleStatement),
      FieldValue(config, "sortRequires", DefaultConfig.sortRequiresEnabled, p.toBool))
  }

  /** A configuration assembled from the nine `get_value` results read from
      `config` is the resolved configuration. */
  lemma AssembleResolved(config: ConfigKeyMap, global: GlobalConfiguration, p: ValueParsers, c: Configuration)
    requires c.lineWidth == FieldValue(config, "lineWidth",
      global.lineWidth.GetOr(RecommendedGlobalConfiguration.lineWidth), p.toUint32)
    requires c.useTabs == FieldValue(config, "useTabs",
      global.useTabs.GetOr(RecommendedGlobalConfiguration.useTabs), p.toBool)
    requires c.indentWidth == FieldValue(config, "indentWidth",
      global.indentWidth.GetOr(RecommendedGlobalConfiguration.indentWidth), p.toUint8)
    requires c.newLineKind == FieldValue(config, "newLineKind",
      global.newLineKind.GetOr(RecommendedGlobalConfiguration.newLineKind), p.toNewLineKind)
    requires c.verify == FieldValue(config, "verify", false, p.toBool)
    requires c.quoteStyle == FieldValue(config, "quoteStyle", DefaultConfig.quoteStyle, p.toQuoteStyle)
    requires c.callParentheses == FieldValue(config, "callParentheses", DefaultConfig.callParentheses, p.toCallParenType)
    requires c.collapseSimpleStatement == FieldValue(config, "collapseSimpleStatement",
      DefaultConfig.collapseSimpleStatement, p.toCollapseSimpleStatement)
    requires c.sortRequires == FieldValue(config, "sortRequires", DefaultConfig.sortRequiresEnabled, p.toBool)
    ensures c == Resolved(config, global, p)
  {
  }

  /** A value diagnostic is reported exactly for a known key that is present
      and whose value does not convert. */
  lemma ValueDiagnosticsExact(config: ConfigKeyMap, p: ValueParsers, d: Diagnostic)
    ensures d in ValueDiagnostics(config, p) <==>
      && d.kind == InvalidValue
      && d.propertyName in KnownKeys
      && d.propertyName in config
      && !Accepts(p, d.propertyName, config[d.propertyName])
  {
    assert d in ValueDiagnostics(config, p) <==>
      || d in ValueDiagnostic(config, "lineWidth", p.toUint32)
      || d in ValueDiagnostic(config, "useTabs", p.toBool)
      || d in ValueDiagnostic(config, "indentWidth", p.toUint8)
      || d in ValueDiagnostic(config, "newLineKind", p.toNewLineKind)
      || d in ValueDiagnostic(config, "verify", p.toBool)
      || d in ValueDiagnostic(config, "quoteStyle", p.toQuoteStyle)
      || d in ValueDiagnostic(config, "callParentheses", p.toCallParenType)
      || d in ValueDiagnostic(config, "collapseSimpleStatement", p.toCollapseSimpleStatement)
      || d in ValueDiagnostic(config, "sortRequires", p.toBool);
  }

  /** Appending the value diagnostic of the key at position `bound` keeps
      the diagnostics in reading order. */
  lemma AppendInKeyOrder<T>(ds: seq<Diagnostic>, config: ConfigKeyMap, key: string,
                            parse: RawValue -> Option<T>, bound: nat)
    requires InKeyOrder(ds, bound)
    requires KeyRank(key) == bound
    ensures InKeyOrder(ds + ValueDiagnostic(config, key, parse), bound + 1)
  {
    var next := ValueDiagnostic(config, key, parse);
    if next != [] {
      assert next[0] in next;
    }
  }

  /** The reading positions of the nine known keys. */
  lemma KeyRanks()
    ensures KeyRank("lineWidth") == 0 && KeyRank("useTabs") == 1 && KeyRank("indentWidth") == 2
    ensures KeyRank("newLineKind") == 3 && KeyRank("verify") == 4 && KeyRank("quoteStyle") == 5
    ensures KeyRank("callParentheses") == 6 && KeyRank("collapseSimpleStatement") == 7
    ensures KeyRank("sortRequires") == 8
  {
  }

  /** The value diagnostics follow the resolver's reading order, so no key
      is reported twice and an earlier key is reported before a later one. */
  lemma ValueDiagnosticsInKeyOrder(config: ConfigKeyMap, p: ValueParsers)
    ensures var ds := ValueDiagnostics(config, p);
      forall i, j :: 0 <= i < j < |ds| ==> KeyRank(ds[i].propertyName) < KeyRank(ds[j].propertyName)
  {
    KeyRanks();
    var ds := ValueDiagnostic(config, "lineWidth", p.toUint32);
    assert InKeyOrder(ds, 1) by {
      if ds != [] {
        assert ds[0] in ds;
      }
    }
    AppendInKeyOrder(ds, config, "useTabs", p.toBool, 1);
    ds := ds + ValueDiagnostic(config, "useTabs", p.toBool);
    AppendInKeyOrder(ds, config, "indentWidth", p.toUint8, 2);
    ds := ds + ValueDiagnostic(config, "indentWidth", p.toUint8);
    AppendInKeyOrder(ds, config, "newLineKind", p.toNewLineKind, 3);
    ds := ds + ValueDiagnostic(config, "newLineKind", p.toNewLineKind);
    AppendInKeyOrder(ds, config, "verify", p.toBool, 4);
    ds := ds + ValueDiagnostic(config, "verify", p.toBool);
    AppendInKeyOrder(ds, config, "quoteStyle", p.toQuoteStyle, 5);
    ds := ds + ValueDiagnostic(config, "quoteStyle", p.toQuoteStyle);
    AppendInKeyOrder(ds, config, "callParentheses", p.toCallParenType, 6);
    ds := ds + ValueDiagnostic(config, "callParentheses", p.toCallParenType);
    AppendInKeyOrder(ds, config, "collapseSimpleStatement", p.toCollapseSimpleStatement, 7);
    ds := ds + ValueDiagnostic(config, "collapseSimpleStatement", p.toCollapseSimpleStatement);
    AppendInKeyOrder(ds, config, "sortRequires", p.toBool, 8);
    ds := ds + ValueDiagnostic(config, "sortRequires", p.toBool);
    assert ds == ValueDiagnostics(config, p);
  }

  /** A configuration whose known keys all convert resolves without value
      diagnostics, and only such a configuration does. */
  lemma NoValueDiagnosticsIffAllConvert(config: ConfigKeyMap, p: ValueParsers)
    ensures ValueDiagnostics(config, p) == [] <==>
      forall k :: k in config && k in KnownKeys ==> Accepts(p, k, config[k])
  {
    var ds := ValueDiagnostics(config, p);
    if ds == [] {
      forall k | k in config && k in KnownKeys
        ensures Accepts(p, k, config[k])
      {
        ValueDiagnosticsExact(config, p, Diagnostic(k, InvalidValue));
      }
    } else {
      assert ds[0] in ds;
      ValueDiagnosticsExact(config, p, ds[0]);
    }
  }

  /** Reading `key` ignores the entry for any other key. */
  lemma ReadIgnoresOtherKey<T>(config: ConfigKeyMap, key: string, other: string, v: RawValue,
                               fallback: T, parse: RawValue -> Option<T>)
    requires key != other
    ensures FieldValue(config[other := v], key, fallback, parse) == FieldValue(config, key, fallback, parse)
    ensures ValueDiagnostic(config[other := v], key, parse) == ValueDiagnostic(config, key, parse)
  {
  }

  /** A key outside the known set changes neither the resolved configuration
      nor the value diagnostics. */
  lemma UnknownKeyIgnored(config: ConfigKeyMap, global: GlobalConfiguration, p: ValueParsers,
                          key: string, v: RawValue)
    requires key !in KnownKeys
    ensures Resolved(config[key := v], global, p) == Resolved(config, global, p)
    ensures ValueDiagnostics(config[key := v], p) == ValueDiagnostics(config, p)
  {
    var g := global;
    var r := RecommendedGlobalConfiguration;
    ReadIgnoresOtherKey(config, "lineWidth", key, v, g.lineWidth.GetOr(r.lineWidth), p.toUint32);
    ReadIgnoresOtherKey(config, "useTabs", key, v, g.useTabs.GetOr(r.useTabs), p.toBool);
    ReadIgnoresOtherKey(config, "indentWidth", key, v, g.indentWidth.GetOr(r.indentWidth), p.toUint8);
    ReadIgnoresOtherKey(config, "newLineKind", key, v, g.newLineKind.GetOr(r.newLineKind), p.toNewLineKind);
    ReadIgnoresOtherKey(config, "verify", key, v, false, p.toBool);
    ReadIgnoresOtherKey(config, "quoteStyle", key, v, DefaultConfig.quoteStyle, p.toQuoteStyle);
    ReadIgnoresOtherKey(config, "callParentheses", key, v, DefaultConfig.callParentheses, p.toCallParenType);
    ReadIgnoresOtherKey(config, "collapseSimpleStatement", key, v,
      DefaultConfig.collapseSimpleStatement, p.toCollapseSimpleStatement);
    ReadIgnoresOtherKey(config, "sortRequires", key, v, DefaultConfig.sortRequiresEnabled, p.toBool);
  }

  /** Dropping `key` does not change what is read for `k`, when `k` is another
      key or `key`'s value does not convert to `k`'s type. */
  lemma ReadWithout<T>(config: ConfigKeyMap, key: string, k: string, fallback: T, parse: RawValue -> Option<T>)
    requires key != k || (key in config && parse(config[key]).None?)
    ensures FieldValue(config - {key}, k, fallback, parse) == FieldValue(config, k, fallback, parse)
  {
  }

  /** A known key whose value does not convert resolves as if it were absent. */
  lemma InvalidValueAsAbsent(config: ConfigKeyMap, global: GlobalConfiguration, p: ValueParsers, key: string)
    requires key in KnownKeys && key in config && !Accepts(p, key, config[key])
    ensures Resolved(config, global, p) == Resolved(config - {key}, global, p)
  {
    var g := global;
    var r := RecommendedGlobalConfiguration;
    ReadWithout(config, key, "lineWidth", g.lineWidth.GetOr(r.lineWidth), p.toUint32);
    ReadWithout(config, key, "useTabs", g.useTabs.GetOr(r.useTabs), p.toBool);
    ReadWithout(config, key, "indentWidth", g.indentWidth.GetOr(r.indentWidth), p.toUint8);
    ReadWithout(config, key, "newLineKind", g.newLineKind.GetOr(r.newLineKind), p.toNewLineKind);
    ReadWithout(config, key, "verify", false, p.toBool);
    ReadWithout(config, key, "quoteStyle", DefaultConfig.quoteStyle, p.toQuoteStyle);
    ReadWithout(config, key, "callParentheses", DefaultConfig.callParentheses, p.toCallParenType);
    ReadWithout(config, key, "collapseSimpleStatement",
      DefaultConfig.collapseSimpleStatement, p.toCollapseSimpleStatement);
    ReadWithout(config, key, "sortRequires", DefaultConfig.sortRequiresEnabled, p.toBool);
  }

  /** A known key whose value converts resolves to that value. */
  lemma ConvertedValueWins(config: ConfigKeyMap, global: GlobalConfiguration, p: ValueParsers)
    ensures var c := Resolved(config, global, p);
      && ("lineWidth" in config && p.toUint32(config["lineWidth"]).Some? ==>
            c.lineWidth == p.toUint32(config["lineWidth"]).value)
      && ("useTabs" in config && p.toBool(config["useTabs"]).Some? ==>
            c.useTabs == p.toBool(config["useTabs"]).value)
      && ("indentWidth" in config && p.toUint8(config["indentWidth"]).Some? ==>
            c.indentWidth == p.toUint8(config["indentWidth"]).value)
      && ("newLineKind" in config && p.toNewLineKind(config["newLineKind"]).Some? ==>
            c.newLineKind == p.toNewLineKind(config["newLineKind"]).value)
      && ("verify" in config && p.toBool(config["verify"]).Some? ==>
            c.verify == p.toBool(config["verify"]).value)
      && ("quoteStyle" in config && p.toQuoteStyle(config["quoteStyle"]).Some? ==>
            c.quoteStyle == p.toQuoteStyle(config["quoteStyle"]).value)
      && ("callParentheses" in config && p.toCallParenType(config["callParentheses"]).Some? ==>
            c.callParentheses == p.toCallParenType(config["callParentheses"]).value)
      && ("collapseSimpleStatement" in config && p.toCollapseSimpleStatement(config["collapseSimpleStatement"]).Some? ==>
            c.collapseSimpleStatement == p.toCollapseSimpleStatement(config["collapseSimpleStatement"]).value)
      && ("sortRequires" in config && p.toBool(config["sortRequires"]).Some? ==>
            c.sortRequires == p.toBool(config["sortRequires"]).value)
  {
  }

  /** With no plugin keys and no global settings every field takes its last
      fallback, and nothing is reported. */
  lemma EmptyConfigResolvesToDefaults(p: ValueParsers)
    ensures Resolved(map[], GlobalConfiguration(None, None, None, None), p) == Configuration(
      RecommendedGlobalConfiguration.lineWidth, RecommendedGlobalConfiguration.useTabs,
      RecommendedGlobalConfiguration.indentWidth, RecommendedGlobalConfiguration.newLineKind,
      false, DefaultConfig.quoteStyle, DefaultConfig.callParentheses,
      DefaultConfig.collapseSimpleStatement, DefaultConfig.sortRequiresEnabled)
    ensures ValueDiagnostics(map[], p) == []
  {
  }

  /** `ds` starts with the value diagnostics `valueDs` and continues with one
      unknown-property diagnostic per key of `unknownKeys`. */
  ghost predicate ValuesThenUnknown(ds: seq<Diagnostic>, valueDs: seq<Diagnostic>, unknownKeys: set<string>)
  {
    && |valueDs| <= |ds|
    && ds[..|valueDs|] == valueDs
    && ListsUnknownProperties(ds[|valueDs|..], unknownKeys)
  }

  /** Extending the value diagnostics with the unknown-property ones keeps
      them first. */
  lemma ExtendWithUnknown(valueDs: seq<Diagnostic>, unknown: seq<Diagnostic>, unknownKeys: set<string>)
    requires ListsUnknownProperties(unknown, unknownKeys)
    ensures ValuesThenUnknown(valueDs + unknown, valueDs, unknownKeys)
  {
    assert (valueDs + unknown)[..|valueDs|] == valueDs;
    assert (valueDs + unknown)[|valueDs|..] == unknown;
  }

  /** `resolve_config`: reads the nine known keys in order, each through
      `get_value`, then reports every leftover key as unknown. */
  method ResolveConfig(config: ConfigKeyMap, global: GlobalConfiguration, p: ValueParsers)
    returns (r: ResolveResult)
    ensures r.config == Resolved(config, global, p)
    // value diagnostics first, in key order, then the unknown-property ones
    ensures ValuesThenUnknown(r.diagnostics, ValueDiagnostics(config, p), config.Keys - KnownKeys)
    ensures r.fileMatching == FileMatchingInfo(["lua"], [])
  {
    var rest := config;
    var diagnostics: seq<Diagnostic> := [];
    ghost var consumed: set<string> := {};
    assert rest == config - consumed;
    KnownKeysDistinct();

    var lineWidth: uint32, useTabs: bool, indentWidth: uint8, newLineKind: NewLineKind, verify: bool;
    var quoteStyle: QuoteStyle, callParentheses: CallParenType;
    var collapseSimpleStatement: CollapseSimpleStatement, sortRequires: bool;

    var lineWidthFallback := global.lineWidth.GetOr(RecommendedGlobalConfiguration.lineWidth);
    ReadUnconsumed(config, consumed, "lineWidth", lineWidthFallback, p.toUint32);
    lineWidth, rest, diagnostics := GetValue(rest, "lineWidth", lineWidthFallback, p.toUint32, diagnostics);
    consumed := consumed + {"lineWidth"};
    assert diagnostics == ValueDiagnostic(config, "lineWidth", p.toUint32);

    var useTabsFallback := global.useTabs.GetOr(RecommendedGlobalConfiguration.useTabs);
    ReadUnconsumed(config, consumed, "useTabs", useTabsFallback, p.toBool);
    useTabs, rest, diagnostics := GetValue(rest, "useTabs", useTabsFallback, p.toBool, diagnostics);
    consumed := consumed + {"useTabs"};

    var indentWidthFallback := global.indentWidth.GetOr(RecommendedGlobalConfiguration.indentWidth);
    ReadUnconsumed(config, consumed, "indentWidth", indentWidthFallback, p.toUint8);
    indentWidth, rest, diagnostics := GetValue(rest, "indentWidth", indentWidthFallback, p.toUint8, diagnostics);
    consumed := consumed + {"indentWidth"};

    var newLineKindFallback := global.newLineKind.GetOr(RecommendedGlobalConfiguration.newLineKind);
    ReadUnconsumed(config, consumed, "newLineKind", newLineKindFallback, p.toNewLineKind);
    newLineKind, rest, diagnostics := GetValue(rest, "newLineKind", newLineKindFallback, p.toNewLineKind, diagnostics);
    consumed := consumed + {"newLineKind"};

    ReadUnconsumed(config, consumed, "verify", false, p.toBool);
    verify, rest, diagnostics := GetValue(rest, "verify", false, p.toBool, diagnostics);
    consumed := consumed + {"verify"};

    ReadUnconsumed(config, consumed, "quoteStyle", DefaultConfig.quoteStyle, p.toQuoteStyle);
    quoteStyle, rest, diagnostics := GetValue(rest, "quoteStyle", DefaultConfig.quoteStyle, p.toQuoteStyle, diagnostics);
    consumed := consumed + {"quoteStyle"};

    ReadUnconsumed(config, consumed, "callParentheses", DefaultConfig.callParentheses, p.toCallParenType);
    callParentheses, rest, diagnostics := GetValue(rest, "callParentheses", DefaultConfig.callParentheses, p.toCallParenType, diagnostics);
    consumed := consumed + {"callParentheses"};

    ReadUnconsumed(config, consumed, "collapseSimpleStatement", DefaultConfig.collapseSimpleStatement, p.toCollapseSimpleStatement);
    collapseSimpleStatement, rest, diagnostics := GetValue(rest, "collapseSimpleStatement", DefaultConfig.collapseSimpleStatement, p.toCollapseSimpleStatement, diagnostics);
    consumed := consumed + {"collapseSimpleStatement"};

    ReadUnconsumed(config, consumed, "sortRequires", DefaultConfig.sortRequiresEnabled, p.toBool);
    sortRequires, rest, diagnostics := GetValue(rest, "sortRequires", DefaultConfig.sortRequiresEnabled, p.toBool, diagnostics);
    consumed := consumed + {"sortRequires"};
    ConsumedInOrder();
    assert rest.Keys == config.Keys - KnownKeys by {
      assert rest == config - KnownKeys;
    }
    var resolved := Configuration(lineWidth, useTabs, indentWidth, newLineKind, verify,
      quoteStyle, callParentheses, collapseSimpleStatement, sortRequires);
    AssembleResolved(config, global, p, resolved);
    assert diagnostics == ValueDiagnostics(config, p);

    var unknown := UnknownPropertyDiagnostics(rest);
    ExtendWithUnknown(diagnostics, unknown, rest.Keys);
    diagnostics := diagnostics + unknown;

    r := ResolveResult(resolved, diagnostics, FileMatchingInfo(["lua"], []));
  }
}
