/**
 The `log` macro of logger.hpp as a pure function.

 A call takes an integer level, the configured threshold, the call site
 (`__FILE__`, `__LINE__`, `__func__`) and the message already rendered by
 printf. It writes nothing when the level is below the threshold; otherwise
 it writes a colour-wrapped tag, a locator for every level other than INFO
 and DEBUG, and then the message. The GNU branch and the standard branch of
 the header differ only in how the variadic arguments are forwarded, so one
 function models both.
 */
module Logger {
  import opened Wrappers
  import opened Levels
  import Decimal

  const Esc: char := '\U{1B}'

  /** The ANSI escape sequences of the colour macros. */
  const Red: string := [Esc] + "[1;31m"
  const Yellow: string := [Esc] + "[1;33m"
  const Green: string := [Esc] + "[1;32m"
  const Blue: string := [Esc] + "[1;34m"
  const Reset: string := [Esc] + "[0m"

  /** Where a `log` call textually appears. */
  datatype CallSite = CallSite(file: string, line: nat, func: string)

  function Color(s: Severity): string
  {
    match s
    case Error => Red
    case Warn => Yellow
    case Info => Green
    case Debug => Blue
  }

  function Name(s: Severity): string
  {
    match s
    case Error => "ERROR"
    case Warn => "WARN"
    case Info => "INFO"
    case Debug => "DEBUG"
  }

  /** The bracketed, colour-wrapped tag of a severity. */
  function Tag(s: Severity): (t: string)
    ensures |t| == |Color(s)| + |Name(s)| + |Reset| + 2
    ensures t[0] == '[' && t[|t| - 1] == ']'
  {
    "[" + Color(s) + Name(s) + Reset + "]"
  }

  /** The tag `log` chooses for an integer level. */
  function LevelTag(level: int): (t: string)
    ensures t == Tag(Debug) <==> level < LevelInfo || level > LevelError
  {
    TagsDistinct(SeverityOf(level), Debug);
    Tag(SeverityOf(level))
  }

  /** The colour digit after `[`, ESC, `[1;3` tells the four tags apart. */
  lemma ColourDigitsDiffer(s: Severity, s': Severity)
    ensures s != s' ==> Tag(s)[6] != Tag(s')[6]
  {
    assert Tag(Error)[6] == '1' && Tag(Warn)[6] == '3';
    assert Tag(Info)[6] == '2' && Tag(Debug)[6] == '4';
  }

  /** Different severities have different tags. */
  lemma TagsDistinct(s: Severity, s': Severity)
    ensures Tag(s) == Tag(s') <==> s == s'
  {
    ColourDigitsDiffer(s, s');
  }

  /** Only INFO and DEBUG are written without the call-site locator. */
  predicate HasLocator(level: int)
  {
    !(level == LevelInfo || level == LevelDebug)
  }

  /** The `file:line func(): ` text written after the tag. */
  function Locator(site: CallSite): (l: string)
    ensures |l| == |site.file| + |Decimal.FromNat(site.line)| + |site.func| + 6
  {
    site.file + ":" + Decimal.FromNat(site.line) + " " + site.func + "(): "
  }

  /** Where each part sits in the locator: the file name, a colon, the decimal
      line number, a space, the function name and `(): `. */
  lemma LocatorLayout(site: CallSite)
    ensures var l := Locator(site);
      && l[..|site.file|] == site.file && l[|site.file|] == ':'
      && l[|site.file| + 1..|l| - |site.func| - 5] == Decimal.FromNat(site.line)
      && l[|l| - |site.func| - 5] == ' '
      && l[|l| - |site.func| - 4..] == site.func + "(): "
  {
    var d, l := Decimal.FromNat(site.line), Locator(site);
    assert l == site.file + [':'] + d + [' '] + (site.func + "(): ");
    assert l[..|site.file|] == site.file;
    assert l[|site.file| + 1..|l| - |site.func| - 5] == d;
    assert l[|l| - |site.func| - 4..] == site.func + "(): ";
  }

  /** Everything `log` writes before the message body. */
  function Prefix(level: int, site: CallSite): (p: string)
    ensures |p| > |LevelTag(level)| && p[..|LevelTag(level)|] == LevelTag(level)
    ensures p[|LevelTag(level)|] == ' '
    ensures HasLocator(level) ==> p[|LevelTag(level)| + 1..] == Locator(site)
    ensures !HasLocator(level) ==> |p| == |LevelTag(level)| + 1
  {
    if HasLocator(level) then LevelTag(level) + " " + Locator(site)
    else LevelTag(level) + " "
  }

  /** The `log` macro: `None` when nothing is written, otherwise the exact record. */
  function Log(level: int, threshold: int, site: CallSite, msg: string): (r: Option<string>)
    ensures r.Some? <==> Emits(level, threshold)
    ensures r.Some? ==> |r.value| > |msg| && r.value[|r.value| - |msg|..] == msg
  {
    if Emits(level, threshold) then Some(Prefix(level, site) + msg) else None
  }

  /** `log_debug`: a tag and a space, then the message, when the threshold admits DEBUG. */
  function LogDebug(threshold: int, site: CallSite, msg: string): (r: Option<string>)
    ensures r.Some? <==> threshold <= LevelDebug
    ensures r.Some? ==> r.value == Tag(Debug) + " " + msg
  {
    Log(LevelDebug, threshold, site, msg)
  }

  /** `log_info`: a tag and a space, then the message, when the threshold admits INFO. */
  function LogInfo(threshold: int, site: CallSite, msg: string): (r: Option<string>)
    ensures r.Some? <==> threshold <= LevelInfo
    ensures r.Some? ==> r.value == Tag(Info) + " " + msg
  {
    Log(LevelInfo, threshold, site, msg)
  }

  /** `log_warn`: tag, locator, then the message, when the threshold admits WARN. */
  function LogWarn(threshold: int, site: CallSite, msg: string): (r: Option<string>)
    ensures r.Some? <==> threshold <= LevelWarn
    ensures r.Some? ==> r.value == Tag(Warn) + " " + Locator(site) + msg
  {
    Log(LevelWarn, threshold, site, msg)
  }

  /** `log_error`: tag, locator, then the message, whenever the threshold is at most ERROR. */
  function LogError(threshold: int, site: CallSite, msg: string): (r: Option<string>)
    ensures r.Some? <==> threshold <= LevelError
    ensures r.Some? ==> r.value == Tag(Error) + " " + Locator(site) + msg
  {
    Log(LevelError, threshold, site, msg)
  }

  lemma ErrorTagText()
    ensures Tag(Error) == "[\U{1B}[1;31mERROR\U{1B}[0m]"
  {
  }

  lemma WarnTagText()
    ensures Tag(Warn) == "[\U{1B}[1;33mWARN\U{1B}[0m]"
  {
  }

  lemma InfoTagText()
    ensures Tag(Info) == "[\U{1B}[1;32mINFO\U{1B}[0m]"
  {
  }

  lemma DebugTagText()
    ensures Tag(Debug) == "[\U{1B}[1;34mDEBUG\U{1B}[0m]"
  {
  }

  /** The tag for each level: ERROR, WARN and INFO for 3, 2 and 1, DEBUG for
      every other integer, each as `[`, colour, name, reset, `]`. */
  lemma TagCases(level: int)
    ensures level == LevelError ==> LevelTag(level) == "[\U{1B}[1;31mERROR\U{1B}[0m]"
    ensures level == LevelWarn ==> LevelTag(level) == "[\U{1B}[1;33mWARN\U{1B}[0m]"
    ensures level == LevelInfo ==> LevelTag(level) == "[\U{1B}[1;32mINFO\U{1B}[0m]"
    ensures level !in {LevelError, LevelWarn, LevelInfo} ==> LevelTag(level) == "[\U{1B}[1;34mDEBUG\U{1B}[0m]"
  {
    if level == LevelError {
      ErrorTagText();
    } else if level == LevelWarn {
      WarnTagText();
    } else if level == LevelInfo {
      InfoTagText();
    } else {
      DebugTagText();
    }
  }

  /** An emitted INFO or DEBUG record is exactly the tag, one space and the
      message: no file, line or function text. */
  lemma PlainRecord(level: int, threshold: int, site: CallSite, msg: string)
    requires level == LevelInfo || level == LevelDebug
    requires Emits(level, threshold)
    ensures Log(level, threshold, site, msg) == Some(Tag(SeverityOf(level)) + " " + msg)
    ensures forall site' :: Log(level, threshold, site', msg) == Log(level, threshold, site, msg)
  {
  }

  /** Every other emitted level, including integers outside 0..3, is written
      as tag, space, `file:line func(): ` and the message. */
  lemma LocatedRecord(level: int, threshold: int, site: CallSite, msg: string)
    requires HasLocator(level)
    requires Emits(level, threshold)
    ensures Log(level, threshold, site, msg) ==
      Some(LevelTag(level) + " " + site.file + ":" + Decimal.FromNat(site.line) + " " + site.func + "(): " + msg)
  {
    var t, d := LevelTag(level), Decimal.FromNat(site.line);
    var l, x := Locator(site), t + " ";
    assert l == site.file + ":" + d + " " + site.func + "(): ";
    assert x + l == x + site.file + ":" + d + " " + site.func + "(): ";
    assert Prefix(level, site) == x + l;
  }

  /** An out-of-range level such as 5 takes the DEBUG tag yet keeps the locator. */
  lemma OutOfRangeLevel(level: int, threshold: int, site: CallSite, msg: string)
    requires level < LevelDebug || level > LevelError
    requires Emits(level, threshold)
    ensures Log(level, threshold, site, msg) == Some(Tag(Debug) + " " + Locator(site) + msg)
    ensures Log(level, threshold, site, msg) != Some(Tag(Debug) + " " + msg)
  {
  }

  /** Output happens exactly when the level reaches the threshold, and a
      record, once emitted, is the same under every lower threshold. */
  lemma LogThresholdMonotone(level: int, threshold: int, threshold': int, site: CallSite, msg: string)
    requires threshold' <= threshold
    ensures Log(level, threshold, site, msg).Some? ==>
      Log(level, threshold', site, msg) == Log(level, threshold, site, msg)
  {
  }

  /** Under the default threshold each of the four levels is written. */
  lemma DefaultThresholdEmitsAll(s: Severity, site: CallSite, msg: string)
    ensures Log(Code(s), DefaultThreshold, site, msg).Some?
  {
  }

  /** The record is the prefix followed by the message and nothing else: for a
      fixed level and call site, the message can be read back off the record. */
  lemma MessageRecoverable(level: int, threshold: int, site: CallSite, msg: string, msg': string)
    requires Log(level, threshold, site, msg).Some?
    requires Log(level, threshold, site, msg) == Log(level, threshold, site, msg')
    ensures msg == msg'
  {
    var p := Prefix(level, site);
    assert (p + msg)[|p|..] == msg;
    assert (p + msg')[|p|..] == msg';
  }
}
