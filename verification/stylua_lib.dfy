/** The formatting engine's types that the plugin touches (stylua_lib). The
    engine itself is not part of this model: its style enumerations and the
    rest of its configuration are opaque, and its default configuration is a
    fixed value the model does not depend on. */
module StyluaLib {

  /** Style enumerations of the engine (`QuoteStyle`, `CallParenType`,
      `CollapseSimpleStatement`); their variants do not matter here. */
  type QuoteStyle(==, 0)
  type CallParenType(==, 0)
  type CollapseSimpleStatement(==, 0)

  /** The engine's error value (syntax error, failed verification, ...). */
  type Error(==, 0)

  datatype LineEndings = Unix | Windows

  datatype OutputVerification = Full | NoVerification

  /** The style settings of `stylua_lib::Config::default()` that the plugin
      uses as fallbacks. */
  datatype StyleDefaults = StyleDefaults(
    quoteStyle: QuoteStyle,
    callParentheses: CallParenType,
    collapseSimpleStatement: CollapseSimpleStatement,
    sortRequiresEnabled: bool)

  const DefaultConfig: StyleDefaults

  /** Settings of `stylua_lib::Config` other than its line endings. */
  type OtherSettings(==, 0)

  /** `stylua_lib::Config`: the plugin only ever overwrites `lineEndings`. */
  datatype Config = Config(lineEndings: LineEndings, others: OtherSettings)
}
