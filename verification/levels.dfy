/**
 Severity levels and the compile-time threshold filter of logger.hpp.

 The header defines the four levels as plain integer macros and compares the
 level argument of `log` against `LOG_LEVEL_THRESHOLD` as integers, so any
 integer can reach the macro; `Severity` names the four values the tag
 selection distinguishes.
 */
module Levels {

  const LevelDebug: int := 0
  const LevelInfo: int := 1
  const LevelWarn: int := 2
  const LevelError: int := 3

  /** `LOG_LEVEL_THRESHOLD` when the build does not define it: the value is
      0 (DEBUG), whatever the comment beside it says. */
  const DefaultThreshold: int := 0

  datatype Severity = Debug | Info | Warn | Error

  /** The four severities in increasing order. */
  const AllSeverities: seq<Severity> := [Debug, Info, Warn, Error]

  /** The integer macro value of a severity; decoding it gives the severity back. */
  function Code(s: Severity): (level: int)
    ensures LevelDebug <= level <= LevelError
    ensures SeverityOf(level) == s
  {
    match s
    case Debug => LevelDebug
    case Info => LevelInfo
    case Warn => LevelWarn
    case Error => LevelError
  }

  /** The severity the nested conditional of `log` selects for an integer
      level: compared with ERROR, WARN and INFO in turn, everything else
      falls through to DEBUG. */
  function SeverityOf(level: int): (s: Severity)
    ensures s == Debug <==> level < LevelInfo || level > LevelError
  {
    if level == LevelError then Error
    else if level == LevelWarn then Warn
    else if level == LevelInfo then Info
    else Debug
  }

  /** Decoding is exact on the four macro values and only there. */
  lemma CodeOfSeverityOf(level: int)
    ensures Code(SeverityOf(level)) == level <==> LevelDebug <= level <= LevelError
  {
  }

  /** The threshold test of `log`: a call with this level produces output. */
  predicate Emits(level: int, threshold: int)
  {
    level >= threshold
  }

  /** The severities, in order, that produce output under `threshold`. */
  function EmittedSeverities(threshold: int): (r: seq<Severity>)
    ensures forall s :: s in r <==> Emits(Code(s), threshold)
  {
    FilterEmitted(AllSeverities, threshold)
  }

  function FilterEmitted(ss: seq<Severity>, threshold: int): (r: seq<Severity>)
    ensures |r| <= |ss|
    ensures forall s :: s in r <==> s in ss && Emits(Code(s), threshold)
  {
    if |ss| == 0 then []
    else if Emits(Code(ss[0]), threshold) then [ss[0]] + FilterEmitted(ss[1..], threshold)
    else FilterEmitted(ss[1..], threshold)
  }

  lemma FilterDebug()
    ensures EmittedSeverities(LevelDebug) == [Debug, Info, Warn, Error]
  {
  }

  lemma FilterInfo()
    ensures EmittedSeverities(LevelInfo) == [Info, Warn, Error]
  {
  }

  lemma FilterWarn()
    ensures EmittedSeverities(LevelWarn) == [Warn, Error]
  {
  }

  lemma FilterError()
    ensures EmittedSeverities(LevelError) == [Error]
  {
  }

  /** The exhaustive 4x4 table: under each of the four standard thresholds
      exactly the severities at or above it are emitted, in order. */
  lemma FilterTable()
    ensures EmittedSeverities(LevelDebug) == [Debug, Info, Warn, Error]
    ensures EmittedSeverities(LevelInfo) == [Info, Warn, Error]
    ensures EmittedSeverities(LevelWarn) == [Warn, Error]
    ensures EmittedSeverities(LevelError) == [Error]
  {
    FilterDebug();
    FilterInfo();
    FilterWarn();
    FilterError();
  }

  /** Lowering the threshold never silences a level; raising the level never
      silences it either. */
  lemma ThresholdMonotone(level: int, threshold: int, threshold': int, level': int)
    requires Emits(level, threshold)
    requires threshold' <= threshold && level <= level'
    ensures Emits(level', threshold')
  {
  }

  /** With no threshold configured every one of the four levels is emitted. */
  lemma DefaultEmitsAll(s: Severity)
    ensures Emits(Code(s), DefaultThreshold)
    ensures EmittedSeverities(DefaultThreshold) == AllSeverities
  {
    FilterTable();
  }
}
