# dprint-plugin-stylua, modelled in Dafny

This project models `StyluaPluginHandler`, the dprint plugin that formats Lua
code with the StyLua engine. It covers the handler's two operations.

- **Resolving the configuration** (`resolve_config`). The raw key/value map is
  threaded through nine `get_value` calls in a fixed order:
  - `lineWidth`, `useTabs`, `indentWidth` and `newLineKind` fall back to the
    global setting, else to the recommended global value;
  - `verify` falls back to `false`;
  - `quoteStyle`, `callParentheses`, `collapseSimpleStatement` and
    `sortRequires` fall back to the engine's defaults.

  Each call removes its key and may append one invalid-value diagnostic. The
  keys left over are then reported as unknown properties, after the value
  diagnostics. The file-matching info is always `["lua"]` with no file names.
  This part is imperative in the source, so it is the method
  `PluginConfig.ResolveConfig`. The method threads the map and the diagnostic
  sequence through `DprintConfig.GetValue` step by step, and it is proved
  against the specification functions `Resolved` and `ValueDiagnostics`.
- **Formatting a file** (`format`). The bytes are decoded as UTF-8. The host
  resolves the newline string, which becomes the engine's line endings. The
  `verify` setting chooses the engine's output verification. The engine runs,
  and its errors are passed on. The result is `None` when the output equals
  the input text, otherwise the bytes of the output. This part is pure in the
  source, so it is the function `PluginFormat.Format`.

Code the handler calls but does not own is passed in as function-valued
parameters:
- the per-type value conversions of `get_value` (`DprintConfig`,
  `PluginConfig.ValueParsers`);
- UTF-8 decoding and encoding, the host's `resolve_new_line_kind`, and the
  engine's `Config::from` and `format_code` (`PluginFormat.Externals`).

Every property holds whatever that code does, with two exceptions. Each of
these two lemmas states its assumption about the code in its `requires`:
- `PluginFormat.ChangedBytesDiffer` assumes that UTF-8 encoding round-trips,
  meaning decoding the encoding of any string gives that string back.
- `PluginFormat.ExplicitNewLineKind` assumes that the host resolves
  `LineFeed` to "\n" and `CarriageReturnLineFeed` to "\r\n".

The host's recommended global configuration and the engine's
`Config::default()` are constants whose values the model does not fix. The
engine's style enumerations are opaque types.

Files:
- `wrappers.dfy`: `Option` and `Result`.
- `dprint_config.dfy`: the host library's configuration types, with the
  contracts of `get_value` and `get_unknown_property_diagnostics`.
- `stylua_lib.dfy`: the engine types the plugin touches.
- `plugin_config.dfy`: the resolver.
- `plugin_format.dfy`: the format adapter.

## Model

| member | source | states |
|---|---|---|
| DprintConfig.FieldValue | src/plugin.rs:27-34 | the value `get_value` yields: the converted value when the key is present and converts, otherwise the fallback (absent key or failed conversion) |
| DprintConfig.ValueDiagnostic | src/plugin.rs:27-34 | `get_value` reports at most one diagnostic; it reports one, an invalid-value diagnostic naming the key, exactly when the key is present and its value does not convert |
| DprintConfig.GetValue | src/plugin.rs:27-34 | the key is removed from the map and nothing else is; the value is `FieldValue`; the diagnostics are the old ones followed by `ValueDiagnostic` |
| DprintConfig.UnknownPropertyDiagnostics | src/plugin.rs:86 | one unknown-property diagnostic for every key left in the map, no key twice, nothing else |
| DprintConfig.ListUnknownProperty | src/plugin.rs:86 | reporting one more, not yet reported key keeps the list exact for the enlarged key set |
| PluginConfig.Resolved | src/plugin.rs:26-84 | for each of the nine fields whose key is absent: the global setting else the recommended value (lineWidth, useTabs, indentWidth, newLineKind), `false` (verify), the engine default (the four style keys) |
| PluginConfig.ValueDiagnostics | src/plugin.rs:22-83 | the diagnostics pushed by the nine `get_value` calls: at most nine, each an invalid-value diagnostic for a key present in the map |
| PluginConfig.ValueDiagnosticsInKeyOrder | src/plugin.rs:22-83 | the value diagnostics follow the order in which the keys are read, so no key is reported twice and an earlier key comes before a later one |
| PluginConfig.ConvertedValueWins | src/plugin.rs:27-83 | a known key whose value converts resolves to exactly that value, for each of the nine fields |
| PluginConfig.InvalidValueAsAbsent | src/plugin.rs:27-83 | a known key whose value does not convert resolves the same as if the key were absent |
| PluginConfig.UnknownKeyIgnored | src/plugin.rs:26-86 | adding a key outside the nine known ones changes neither the resolved configuration nor the value diagnostics |
| PluginConfig.ValueDiagnosticsExact | src/plugin.rs:27-83 | a diagnostic is among the value diagnostics iff it is an invalid-value diagnostic for a known key that is present and does not convert |
| PluginConfig.NoValueDiagnosticsIffAllConvert | src/plugin.rs:27-83 | there are no value diagnostics iff every known key present converts |
| PluginConfig.EmptyConfigResolvesToDefaults | src/plugin.rs:24-84 | with an empty map and no global settings every field is its last fallback, and there are no value diagnostics |
| PluginConfig.ResolveConfig | src/plugin.rs:16-96 | the result is the fully populated `Resolved` configuration; the diagnostics are the value diagnostics (in key order, by `ValueDiagnosticsInKeyOrder`), then exactly one unknown-property diagnostic per input key outside the nine known keys; the file matching is `["lua"]` with no file names |
| PluginFormat.LineEndingsFor | src/plugin.rs:123-129 | Windows exactly for "\r\n"; Unix for "\n" and for any other string |
| PluginFormat.VerificationFor | src/plugin.rs:135-138 | full verification exactly when `verify` is set, none otherwise |
| PluginFormat.EngineConfig | src/plugin.rs:122-129 | the engine configuration differs from `Config::from` of the plugin configuration only in its line endings, which are Windows exactly when the host resolves "\r\n" |
| PluginFormat.EngineOutput | src/plugin.rs:131-139 | the engine runs on the decoded text with the engine configuration, with full verification exactly when `verify` is set and no verification otherwise |
| PluginFormat.Format | src/plugin.rs:113-145 | fails with `InvalidUtf8` exactly when the bytes do not decode; otherwise fails exactly when the engine fails, with its error; returns `None` exactly when the engine output equals the decoded text; a `Some` carries the encoded output, which differs from the text |
| PluginFormat.InvalidUtf8NeverReachesEngine | src/plugin.rs:120 | undecodable bytes fail with `InvalidUtf8` whatever the engine, the projection and the newline resolution do |
| PluginFormat.EngineErrorPropagates | src/plugin.rs:131-139 | an engine error on the decoded text is returned as the format error |
| PluginFormat.ChangedBytesDiffer | src/plugin.rs:140-144 | when UTF-8 encoding round-trips, the bytes of a changed file differ from the input bytes and decode to the engine's output |
| PluginFormat.ExplicitNewLineKind | src/plugin.rs:123-129 | when the host resolves LineFeed to "\n" and CarriageReturnLineFeed to "\r\n", those settings give Unix and Windows line endings |

## Left out

- `plugin_info` and `license_text` (src/plugin.rs:98-111) are left out. They return static metadata built by compile-time macros and contain no logic.
- `check_config_updates` (src/plugin.rs:147-152) is left out. Its body is `todo!()`, which always panics, so there is nothing to state.
- The `generate_plugin_code!` glue (src/plugin.rs:155-156) is left out. It is the host protocol.
- The `_format_with_host` callback is left out because `format` never calls it.
- The `None` range argument passed to `format_code` is left out, since the whole text is always formatted.
- The conversion rules of `get_value` are not modelled. They live in the host library, so they are parameters here.
- The host's newline auto-detection in `resolve_new_line_kind` is not modelled. It is a parameter.
- `Config::from` is not modelled. It is the projection from `crate::config::Configuration`, and that file is not part of this model.
- `format_code` is the StyLua engine. It is not part of this model and is a parameter.
- The formatting engine's own properties, such as idempotence, are left out.
- DprintConfig.UnknownPropertyDiagnostics: does not fix the order among unknown-property diagnostics. The map is unordered in the model, so the contract states the set of reported keys, with each key reported once.
- The message text of a diagnostic is not modelled. A diagnostic carries only the property name and the kind of problem.
- Raw null values are not modelled. The host library handles a null separately: it drops the key without reporting a diagnostic, which is not the same as a failed conversion. The host library is not part of this model, so the model makes no claim about nulls.
- Raw array and object values are not modelled either.
- Raw numbers are unbounded integers, not the host's 32-bit ones. The conversions decide what fits.
