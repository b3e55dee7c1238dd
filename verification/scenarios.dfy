/**
 The two driver programs of the repository as call sequences, with the
 records their `log_*` calls write. Messages are given as printf would
 render them; the file name stands for whatever `__FILE__` expands to.
 example/main.cpp is modelled without its lines 16-19: the `log_once_*`
 macros called there are not defined in logger.hpp.
 */
module Scenarios {
  import opened Levels
  import opened Logger
  import opened Stream
  import Decimal

  /** main.cpp: the threshold is set to WARN and four calls follow. */
  const MainThreshold: int := LevelWarn

  function MainSite(line: nat): CallSite
  {
    CallSite("main.cpp", line, "main")
  }

  const MainCalls: seq<Call> := [
    Call(LevelInfo, MainSite(12), "info with args: test at 15 baud\n"),
    Call(LevelError, MainSite(13), "err test\n"),
    Call(LevelWarn, MainSite(14), "warn test  f\n"),
    Call(LevelDebug, MainSite(15), "some debug\n")
  ]

  lemma MainLocator13()
    ensures Locator(MainSite(13)) == "main.cpp:13 main(): "
  {
    assert Decimal.FromNat(13) == "13";
  }

  lemma MainLocator14()
    ensures Locator(MainSite(14)) == "main.cpp:14 main(): "
  {
    assert Decimal.FromNat(14) == "14";
  }

  /** Under threshold WARN the info and debug calls write nothing, and the
      error and warn calls write records carrying their locators. */
  lemma MainScenario()
    ensures Records(MainThreshold, MainCalls) == [
      Tag(Error) + " " + Locator(MainSite(13)) + "err test\n",
      Tag(Warn) + " " + Locator(MainSite(14)) + "warn test  f\n"
    ]
    ensures Locator(MainSite(13)) == "main.cpp:13 main(): "
    ensures Locator(MainSite(14)) == "main.cpp:14 main(): "
  {
    var c, t := MainCalls, MainThreshold;
    assert Written(t, c[0]) == [] && Written(t, c[3]) == [];
    WrittenOf(t, c[1], Error);
    WrittenOf(t, c[2], Warn);
    UnfoldFour(t, c);
    MainLocator13();
    MainLocator14();
  }

  /** Four calls write what each writes, in order. */
  lemma UnfoldFour(t: int, c: seq<Call>)
    requires |c| == 4
    ensures Records(t, c) == Written(t, c[0]) + Written(t, c[1]) + Written(t, c[2]) + Written(t, c[3])
  {
    assert c == [c[0]] + [c[1]] + [c[2]] + [c[3]];
    RecordsAppend(t, [c[0]] + [c[1]] + [c[2]], [c[3]]);
    RecordsAppend(t, [c[0]] + [c[1]], [c[2]]);
    RecordsAppend(t, [c[0]], [c[1]]);
    RecordsOne(t, c[0]);
    RecordsOne(t, c[1]);
    RecordsOne(t, c[2]);
    RecordsOne(t, c[3]);
  }

  /** The record of a call at one of the standard levels, spelled out from its parts. */
  lemma WrittenOf(t: int, call: Call, sev: Severity)
    requires call.level == Code(sev) && Emits(call.level, t)
    ensures HasLocator(call.level) ==> Written(t, call) == [Tag(sev) + " " + Locator(call.site) + call.msg]
    ensures !HasLocator(call.level) ==> Written(t, call) == [Tag(sev) + " " + call.msg]
  {
  }

  /** example/main.cpp: no threshold configured, four calls and then a loop
      of five `log_info` calls on one line (lines 16-19 are left out). */
  function ExampleSite(line: nat): CallSite
  {
    CallSite("example/main.cpp", line, "main")
  }

  const ExampleCalls: seq<Call> := [
    Call(LevelInfo, ExampleSite(8), "info with args: test at 15 baud\n"),
    Call(LevelError, ExampleSite(9), "err test\n"),
    Call(LevelWarn, ExampleSite(10), "warn test  f\n"),
    Call(LevelDebug, ExampleSite(11), "some debug\n")
  ]

  /** The five iterations of `log_info("log_info %i\n", i)`. */
  const LoopCalls: seq<Call> :=
    seq(5, i requires 0 <= i => Call(LevelInfo, ExampleSite(15), "log_info " + Decimal.FromNat(i) + "\n"))

  lemma ExampleLocator9()
    ensures Locator(ExampleSite(9)) == "example/main.cpp:9 main(): "
  {
    assert Decimal.FromNat(9) == "9";
  }

  lemma ExampleLocator10()
    ensures Locator(ExampleSite(10)) == "example/main.cpp:10 main(): "
  {
    assert Decimal.FromNat(10) == "10";
  }

  /** Under the default threshold all four calls before the loop write: info
      and debug plainly, error and warn with their locators. */
  lemma ExampleScenario()
    ensures Records(DefaultThreshold, ExampleCalls) == [
      Tag(Info) + " " + "info with args: test at 15 baud\n",
      Tag(Error) + " " + Locator(ExampleSite(9)) + "err test\n",
      Tag(Warn) + " " + Locator(ExampleSite(10)) + "warn test  f\n",
      Tag(Debug) + " " + "some debug\n"
    ]
    ensures Locator(ExampleSite(9)) == "example/main.cpp:9 main(): "
    ensures Locator(ExampleSite(10)) == "example/main.cpp:10 main(): "
  {
    var c, t := ExampleCalls, DefaultThreshold;
    WrittenOf(t, c[0], Info);
    WrittenOf(t, c[1], Error);
    WrittenOf(t, c[2], Warn);
    WrittenOf(t, c[3], Debug);
    UnfoldFour(t, c);
    ExampleLocator9();
    ExampleLocator10();
  }

  /** The loop then adds five INFO records, the i-th reading `log_info i`,
      after the four records of the first calls. */
  lemma ExampleLoop()
    ensures |Records(DefaultThreshold, ExampleCalls + LoopCalls)| == 9
    ensures Records(DefaultThreshold, ExampleCalls + LoopCalls)[..4] == Records(DefaultThreshold, ExampleCalls)
    ensures forall i :: 0 <= i < 5 ==>
      Records(DefaultThreshold, ExampleCalls + LoopCalls)[4 + i] == Tag(Info) + " " + "log_info " + Decimal.FromNat(i) + "\n"
  {
    var c, l, t := ExampleCalls, LoopCalls, DefaultThreshold;
    RecordsAppend(t, c, l);
    assert forall i :: 0 <= i < |l| ==> l[i].level == LevelInfo;
    RecordsAllEmit(t, l);
    forall i | 0 <= i < 5
      ensures Records(t, l)[i] == Tag(Info) + " " + "log_info " + Decimal.FromNat(i) + "\n"
    {
      WrittenOf(t, l[i], Info);
    }
    ExampleScenario();
  }
}
