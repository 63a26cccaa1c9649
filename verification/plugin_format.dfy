/** The plugin's format adapter (`StyluaPluginHandler::format`): decode the
    file as UTF-8, choose line endings and the verification mode, run the
    engine, and report whether the text changed. */
module PluginFormat {
  import opened Wrappers
  import opened DprintConfig
  import opened StyluaLib
  import opened PluginConfig

  /** A byte of the file's content. */
  type Byte = b: int | 0 <= b < 0x100

  /** Why formatting a file failed. */
  datatype FormatError =
    | InvalidUtf8               // the file bytes are not UTF-8
    | EngineError(cause: Error) // the engine rejected the text

  /** The code the adapter calls but does not own: UTF-8 decoding
      (`String::from_utf8`) and encoding (`String::into_bytes`), the host's
      `resolve_new_line_kind`, the engine's `Config::from` and `format_code`. */
  datatype Externals = Externals(
    decodeUtf8: seq<Byte> -> Option<string>,
    encodeUtf8: string -> seq<Byte>,
    resolveNewLineKind: (string, NewLineKind) -> string,
    toStyluaConfig: Configuration -> Config,
    formatCode: (string, Config, OutputVerification) -> Result<string, Error>)

  /** The engine's line endings for the newline string the host resolved:
      Windows for "\r\n", Unix for "\n" and for anything else. */
  function LineEndingsFor(newline: string): (e: LineEndings)
    ensures e == Windows <==> newline == "\r\n"
    ensures e == Unix <==> newline != "\r\n"
  {
    if newline == "\r\n" then Windows
    else if newline == "\n" then Unix
    else Unix
  }

  /** Full verification of the engine's output exactly when `verify` is set. */
  function VerificationFor(verify: bool): (v: OutputVerification)
    ensures v == Full <==> verify
    ensures v == NoVerification <==> !verify
  {
    if verify then Full else NoVerification
  }

  /** The engine configuration for `text`: the projection of the plugin
      configuration with its line endings replaced by the resolved ones. */
  function EngineConfig(ext: Externals, text: string, config: Configuration): (c: Config)
    // only the line endings differ from the projection
    ensures c.(lineEndings := ext.toStyluaConfig(config).lineEndings) == ext.toStyluaConfig(config)
    ensures c.lineEndings == Windows <==> ext.resolveNewLineKind(text, config.newLineKind) == "\r\n"
  {
    ext.toStyluaConfig(config).(lineEndings := LineEndingsFor(ext.resolveNewLineKind(text, config.newLineKind)))
  }

  /** What the engine makes of `text` under the plugin configuration. */
  function EngineOutput(ext: Externals, text: string, config: Configuration): (r: Result<string, Error>)
    // the engine runs on the text with full verification exactly when `verify` is set
    ensures config.verify ==> r == ext.formatCode(text, EngineConfig(ext, text, config), Full)
    ensures !config.verify ==> r == ext.formatCode(text, EngineConfig(ext, text, config), NoVerification)
  {
    ext.formatCode(text, EngineConfig(ext, text, config), VerificationFor(config.verify))
  }

  /** `format`: `None` when the engine leaves the text as it is, otherwise the
      bytes of the new text; undecodable input and engine errors fail. */
  function Format(ext: Externals, fileBytes: seq<Byte>, config: Configuration)
    : (r: Result<Option<seq<Byte>>, FormatError>)
    ensures r == Failure(InvalidUtf8) <==> ext.decodeUtf8(fileBytes).None?
    ensures ext.decodeUtf8(fileBytes).Some? ==>
      var text := ext.decodeUtf8(fileBytes).value;
      var out := EngineOutput(ext, text, config);
      && (r.Failure? <==> out.Failure?)
      && (out.Failure? ==> r == Failure(EngineError(out.error)))
      && (r == Success(None) <==> out == Success(text))
      && (r.Success? && r.value.Some? ==>
            out.Success? && out.value != text && r.value.value == ext.encodeUtf8(out.value))
  {
    match ext.decodeUtf8(fileBytes)
    case None => Failure(InvalidUtf8)
    case Some(text) =>
      match EngineOutput(ext, text, config)
      case Failure(e) => Failure(EngineError(e))
      case Success(result) =>
        if result == text then Success(None) else Success(Some(ext.encodeUtf8(result)))
  }

  /** Bytes that are not UTF-8 fail before the engine runs: the outcome does
      not depend on the engine, the newline resolution or the projection. */
  lemma InvalidUtf8NeverReachesEngine(ext: Externals, fileBytes: seq<Byte>, config: Configuration,
                                      resolveNewLineKind: (string, NewLineKind) -> string,
                                      toStyluaConfig: Configuration -> Config,
                                      formatCode: (string, Config, OutputVerification) -> Result<string, Error>)
    requires ext.decodeUtf8(fileBytes).None?
    ensures Format(ext, fileBytes, config) == Failure(InvalidUtf8)
    ensures Format(ext.(resolveNewLineKind := resolveNewLineKind, toStyluaConfig := toStyluaConfig,
                        formatCode := formatCode), fileBytes, config) == Failure(InvalidUtf8)
  {
  }

  /** An engine error is passed on unchanged. */
  lemma EngineErrorPropagates(ext: Externals, fileBytes: seq<Byte>, config: Configuration, text: string, e: Error)
    requires ext.decodeUtf8(fileBytes) == Some(text)
    requires ext.formatCode(text, EngineConfig(ext, text, config), VerificationFor(config.verify)) == Failure(e)
    ensures Format(ext, fileBytes, config) == Failure(EngineError(e))
  {
  }

  /** When encoding and then decoding gives the text back, the bytes returned
      for a changed file differ from the file's bytes and decode to the
      engine's output. */
  lemma ChangedBytesDiffer(ext: Externals, fileBytes: seq<Byte>, config: Configuration, newBytes: seq<Byte>)
    requires Format(ext, fileBytes, config) == Success(Some(newBytes))
    requires forall s :: ext.decodeUtf8(ext.encodeUtf8(s)) == Some(s)
    ensures newBytes != fileBytes
    ensures ext.decodeUtf8(newBytes) == Some(EngineOutput(ext, ext.decodeUtf8(fileBytes).value, config).value)
  {
    var text := ext.decodeUtf8(fileBytes).value;
    var out := EngineOutput(ext, text, config).value;
    assert newBytes == ext.encodeUtf8(out);
    assert ext.decodeUtf8(newBytes) == Some(out);
  }

  /** The host's newline policy reaches the engine: where the host resolves
      `LineFeed` to "\n" and `CarriageReturnLineFeed` to "\r\n", the engine
      gets Unix and Windows line endings respectively. */
  lemma ExplicitNewLineKind(ext: Externals, text: string, config: Configuration)
    requires ext.resolveNewLineKind(text, LineFeed) == "\n"
    requires ext.resolveNewLineKind(text, CarriageReturnLineFeed) == "\r\n"
    ensures config.newLineKind == LineFeed ==> EngineConfig(ext, text, config).lineEndings == Unix
    ensures config.newLineKind == CarriageReturnLineFeed ==> EngineConfig(ext, text, config).lineEndings == Windows
  {
  }
}
