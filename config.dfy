/**
 * `HighlightOptions`, the configuration `H.init` captures, and the two things
 * derived from it: the recorder bundle's script source and the options the
 * recorder is constructed with.
 */
module Config {
  import opened Wrappers
  import opened Values
  import Text

  /** `debug?: boolean | DebugOptions`. */
  datatype Debug = DebugUnset | DebugFlag(on: bool) | DebugDetailed(settings: Value)

  /** `HighlightOptions`: every field optional (`None` is `undefined`). */
  datatype Options = Options(
    debug: Debug,
    scriptUrl: Option<string>,
    backendUrl: Option<string>,
    manualStart: Option<bool>,
    disableNetworkRecording: Option<bool>,
    disableConsoleRecording: Option<bool>,
    enableSegmentIntegration: Option<bool>,
    enableStrictPrivacy: Option<bool>)

  const DEFAULT_SCRIPT_URL := "https://static.highlight.run/index.js"

  /** A string option is truthy when it is set and not empty. */
  predicate TruthyText(s: Option<string>) {
    s.Some? && s.value != ""
  }

  /** A boolean option is truthy when it is set to `true`. */
  predicate TruthyFlag(b: Option<bool>) {
    b == Some(true)
  }

  /** `options?.manualStart` is truthy. */
  predicate ManualStart(options: Option<Options>) {
    options.Some? && TruthyFlag(options.value.manualStart)
  }

  /** The millisecond field of the current time, `new Date().getMilliseconds()`. */
  type Millis = m: int | 0 <= m < 1000

  /** `options?.scriptUrl ? options.scriptUrl : DEFAULT_SCRIPT_URL`. */
  function ScriptBase(options: Option<Options>): (r: string)
    ensures r != ""
    ensures r == DEFAULT_SCRIPT_URL || (options.Some? && options.value.scriptUrl == Some(r))
  {
    if options.Some? && TruthyText(options.value.scriptUrl) then options.value.scriptUrl.value
    else DEFAULT_SCRIPT_URL
  }

  /** The `src` attribute of the injected script element. */
  function ScriptSource(options: Option<Options>, millis: Millis): string {
    ScriptBase(options) + "?" + Text.Dec(millis)
  }

  /**
   * Splits a script source at its last `?` into the bundle location and the
   * cache-busting number; `None` when there is no `?` or the tail is not a number.
   */
  function SplitScriptSource(src: string): (r: Option<(string, nat)>)
    ensures r.Some? ==> r.value.0 + "?" + Text.Dec(r.value.1) == src
  {
    match Text.LastIndexOf(src, '?')
    case None => None
    case Some(k) =>
      var tail := src[k + 1..];
      if tail != [] && Text.AllDigits(tail) && (tail[0] != '0' || |tail| == 1) then
        ParsedTail(tail);
        assert src == src[..k] + "?" + tail;
        Some((src[..k], Text.Parse(tail)))
      else None
  }

  /** A digit string without leading zeros is the decimal rendering of its value. */
  lemma {:induction false} ParsedTail(s: string)
    requires s != [] && Text.AllDigits(s) && (s[0] != '0' || |s| == 1)
    ensures Text.Dec(Text.Parse(s)) == s
  {
    var init := s[..|s| - 1];
    var last := Text.DigitValue(s[|s| - 1]);
    if |s| == 1 {
      assert Text.Parse(s) == 10 * Text.Parse([]) + last;
    } else {
      assert init[0] == s[0];
      ParsedTail(init);
      var p := Text.Parse(init);
      assert p > 0;
      var n := Text.Parse(s);
      assert n == 10 * p + last;
      assert n / 10 == p && n % 10 == last;
      assert s == init + [s[|s| - 1]];
    }
  }

  /** The constructor argument of `window.Highlight` (`HighlightClassOptions`). */
  datatype ClassOptions = ClassOptions(
    organizationID: Ident,
    debug: Debug,
    backendUrl: Option<string>,
    disableNetworkRecording: Option<bool>,
    disableConsoleRecording: Option<bool>,
    enableSegmentIntegration: Option<bool>,
    enableStrictPrivacy: bool)

  /** The object the load listener passes to `new window.Highlight(...)`. */
  function ClassOptionsOf(orgID: Ident, options: Option<Options>): ClassOptions {
    match options
    case None =>
      ClassOptions(orgID, DebugUnset, None, None, None, None, false)
    case Some(o) =>
      ClassOptions(orgID, o.debug, o.backendUrl, o.disableNetworkRecording,
                   o.disableConsoleRecording, o.enableSegmentIntegration,
                   TruthyFlag(o.enableStrictPrivacy))
  }
}
