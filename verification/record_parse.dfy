/**
 Reading a record back: the severity from its tag, and the call site from
 its locator. These readers are the inverses against which the formatter
 of `log` is checked: the tag identifies the severity the nested
 conditional chose, and the locator carries file, line and function
 unambiguously whenever the file name has no colon.
 */
module RecordParse {
  import opened Wrappers
  import opened Levels
  import opened Logger
  import Decimal

  /** The severity whose tag starts `s`, if any. */
  function DecodeTag(s: string): (r: Option<Severity>)
    ensures r.Some? ==> Tag(r.value) <= s
  {
    if Tag(Error) <= s then Some(Error)
    else if Tag(Warn) <= s then Some(Warn)
    else if Tag(Info) <= s then Some(Info)
    else if Tag(Debug) <= s then Some(Debug)
    else None
  }

  /** The first position of `c` in `s`. */
  function IndexOf(s: string, c: char): (r: Option<nat>)
    ensures r.Some? ==> r.value < |s| && s[r.value] == c && c !in s[..r.value]
    ensures r.None? ==> c !in s
  {
    if |s| == 0 then None
    else if s[0] == c then Some(0)
    else
      match IndexOf(s[1..], c)
      case None => None
      case Some(i) =>
        assert s[..i + 1] == [s[0]] + s[1..][..i];
        Some(i + 1)
  }

  /** Splits `file:line func(): ` at the first colon. */
  function ParseLocator(s: string): (r: Option<CallSite>)
    ensures r.Some? ==> ':' !in r.value.file
  {
    match IndexOf(s, ':')
    case None => None
    case Some(i) => ParseLineAndFunc(s[..i], s[i + 1..])
  }

  /** Splits `line func(): ` at the first space. */
  function ParseLineAndFunc(file: string, rest: string): (r: Option<CallSite>)
    ensures r.Some? ==> r.value.file == file
  {
    match IndexOf(rest, ' ')
    case None => None
    case Some(j) => ParseFunc(file, rest[..j], rest[j + 1..])
  }

  /** Reads the line number and strips the `(): ` ending off the function name. */
  function ParseFunc(file: string, digits: string, tail: string): (r: Option<CallSite>)
    ensures r.Some? ==> r.value.file == file && r.value.func + "(): " == tail
  {
    if |digits| == 0 || !Decimal.AllDigits(digits) || |tail| < 4 || tail[|tail| - 4..] != "(): " then None
    else
      assert tail[..|tail| - 4] + "(): " == tail;
      Some(CallSite(file, Decimal.ToNat(digits), tail[..|tail| - 4]))
  }

  /** Any text after a tag leaves the severity readable. */
  lemma {:induction false} DecodeTagPrefix(sev: Severity, rest: string)
    ensures DecodeTag(Tag(sev) + rest) == Some(sev)
  {
    var s := Tag(sev) + rest;
    assert s[..|Tag(sev)|] == Tag(sev);
    forall other | other != sev
      ensures !(Tag(other) <= s)
    {
      ColourDigitsDiffer(sev, other);
      assert s[6] == Tag(sev)[6];
    }
  }

  /** The severity read off an emitted record is the one the level selected:
      ERROR, WARN, INFO for 3, 2, 1 and DEBUG for every other integer. */
  lemma DecodeRecord(level: int, threshold: int, site: CallSite, msg: string)
    requires Emits(level, threshold)
    ensures DecodeTag(Log(level, threshold, site, msg).value) == Some(SeverityOf(level))
  {
    var p := Prefix(level, site);
    var rest := p[|LevelTag(level)|..] + msg;
    assert p + msg == LevelTag(level) + rest;
    DecodeTagPrefix(SeverityOf(level), rest);
  }

  /** The first `c` in `a + [c] + b` is the one after `a` when `a` has none. */
  lemma IndexOfAfter(a: string, c: char, b: string)
    requires c !in a
    ensures IndexOf(a + [c] + b, c) == Some(|a|)
  {
    var s := a + [c] + b;
    assert s[..|a|] == a;
    assert s[|a|] == c;
  }

  lemma ParseFuncOf(file: string, line: nat, func: string)
    ensures ParseFunc(file, Decimal.FromNat(line), func + "(): ") == Some(CallSite(file, line, func))
  {
    var tail := func + "(): ";
    assert tail[|tail| - 4..] == "(): ";
    assert tail[..|tail| - 4] == func;
    Decimal.ToNatFromNat(line);
  }

  lemma ParseLineAndFuncOf(file: string, line: nat, func: string)
    ensures ParseLineAndFunc(file, Decimal.FromNat(line) + [' '] + func + "(): ") == Some(CallSite(file, line, func))
  {
    var d, tail := Decimal.FromNat(line), func + "(): ";
    var rest := d + [' '] + func + "(): ";
    assert rest == d + [' '] + tail;
    assert ' ' !in d by {
      forall k | 0 <= k < |d| ensures d[k] != ' ' {
        assert Decimal.IsDigit(d[k]);
      }
    }
    IndexOfAfter(d, ' ', tail);
    assert rest[..|d|] == d;
    assert rest[|d| + 1..] == tail;
    ParseFuncOf(file, line, func);
  }

  /** The locator reads back as the call site it was written from, provided
      the file name contains no colon. */
  lemma LocatorRoundTrip(site: CallSite)
    requires ':' !in site.file
    ensures ParseLocator(Locator(site)) == Some(site)
  {
    var rest := Decimal.FromNat(site.line) + [' '] + site.func + "(): ";
    var s := Locator(site);
    assert s == site.file + [':'] + rest;
    IndexOfAfter(site.file, ':', rest);
    assert s[..|site.file|] == site.file;
    assert s[|site.file| + 1..] == rest;
    ParseLineAndFuncOf(site.file, site.line, site.func);
  }

  /** Two call sites whose file names have no colon write the same locator
      only if they are the same call site. */
  lemma LocatorInjective(site: CallSite, site': CallSite)
    requires ':' !in site.file && ':' !in site'.file
    requires Locator(site) == Locator(site')
    ensures site == site'
  {
    LocatorRoundTrip(site);
    LocatorRoundTrip(site');
  }
}
