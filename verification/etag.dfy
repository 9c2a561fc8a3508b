/** Printing ETags and reading versions back out of If-Match headers
    (apps/api/repositories.py; sections 8.8.3 and 13.1.1 of RFC 9110). */
module Etag {
  import opened Wrappers

  /** The decimal digits of every script, with their values: what `\d` matches and `int` reads. */
  type Digits = char -> Option<nat>

  predicate AllDigits(digits: Digits, s: string) {
    forall i | 0 <= i < |s| :: digits(s[i]).Some?
  }

  function DigitChar(d: nat): char
    requires d < 10
  {
    ('0' as int + d) as char
  }

  function Decimal(n: nat): string {
    if n < 10 then [DigitChar(n)] else Decimal(n / 10) + [DigitChar(n % 10)]
  }

  /** The ASCII digits are among them, and the letter before the version is not. */
  ghost predicate IsDigitTable(digits: Digits) {
    (forall d: nat | d < 10 :: digits(DigitChar(d)) == Some(d)) && digits('v').None?
  }

  function DecimalValue(digits: Digits, s: string): nat
    requires AllDigits(digits, s)
  {
    if s == [] then 0 else 10 * DecimalValue(digits, s[..|s| - 1]) + digits(s[|s| - 1]).value
  }

  /** What a call of Python's `str.strip` takes off: whitespace, or double quotes. */
  datatype Strip = Whitespace | Quotes {
    predicate Has(c: char) {
      match this
      case Quotes => c == '"'
      case Whitespace =>
        || '\t' <= c <= '\r'
        || '\U{1c}' <= c <= ' '
        || c == '\U{85}' || c == '\U{a0}' || c == '\U{1680}'
        || '\U{2000}' <= c <= '\U{200a}'
        || c == '\U{2028}' || c == '\U{2029}' || c == '\U{202f}' || c == '\U{205f}' || c == '\U{3000}'
    }

    predicate All(s: string) {
      forall i | 0 <= i < |s| :: Has(s[i])
    }
  }

  /** Python's whitespace, character by character. */
  lemma WhitespaceIs(c: char)
    ensures Whitespace.Has(c) <==>
            c in "\t\n\U{b}\U{c}\r\U{1c}\U{1d}\U{1e}\U{1f} \U{85}\U{a0}\U{1680}\U{2000}\U{2001}\U{2002}\U{2003}\U{2004}\U{2005}\U{2006}\U{2007}\U{2008}\U{2009}\U{200a}\U{2028}\U{2029}\U{202f}\U{205f}\U{3000}"
    ensures Quotes.Has(c) <==> c == '"'
  {
  }

  function TrimLeft(s: string, strip: Strip): string {
    if s != [] && strip.Has(s[0]) then TrimLeft(s[1..], strip) else s
  }

  function TrimRight(s: string, strip: Strip): string {
    if s != [] && strip.Has(s[|s| - 1]) then TrimRight(s[..|s| - 1], strip) else s
  }

  function Trim(s: string, strip: Strip): string {
    TrimRight(TrimLeft(s, strip), strip)
  }

  /** The longest all-digit suffix. */
  function TrailingDigits(digits: Digits, s: string): (ds: string)
    ensures AllDigits(digits, ds)
    ensures |ds| <= |s| && ds == s[|s| - |ds|..]
    ensures |ds| < |s| ==> digits(s[|s| - |ds| - 1]).None?
  {
    if s != [] && digits(s[|s| - 1]).Some? then TrailingDigits(digits, s[..|s| - 1]) + [s[|s| - 1]] else []
  }

  /** Python's `$` also matches just before one final newline. */
  function DropFinalNewline(s: string): string {
    if s != [] && s[|s| - 1] == '\n' then s[..|s| - 1] else s
  }

  /** Searching a string for the pattern `-v(\d+)$`. */
  function SearchVersion(digits: Digits, s: string): Option<nat> {
    var t := DropFinalNewline(s);
    var ds := TrailingDigits(digits, t);
    var cut := |t| - |ds|;
    if ds != [] && 2 <= cut && t[cut - 2..cut] == "-v" then Some(DecimalValue(digits, ds)) else None
  }

  function PrintEtag(code: string, version: nat): string {
    "\"" + code + "-v" + Decimal(version) + "\""
  }

  function ParseExpectedVersion(digits: Digits, ifMatch: Option<string>): Result<Option<nat>, ActionError> {
    if ifMatch.None? then
      Ok(None)
    else
      var stripped := Trim(ifMatch.value, Whitespace);
      var candidate := if "W/" <= stripped then Trim(stripped[2..], Whitespace) else stripped;
      if candidate == "*" then
        Ok(None)
      else
        match SearchVersion(digits, Trim(candidate, Quotes))
        case None => Err(InvalidPrecondition)
        case Some(version) => Ok(Some(version))
  }

  /** The checks `_require_version` makes on what was parsed. */
  function RequireVersion(current: nat, expected: Option<nat>): Option<ActionError> {
    if expected.None? then Some(PreconditionRequired)
    else if expected.value != current then Some(StalePrecondition)
    else None
  }

  lemma {:induction false} DecimalRoundTrip(digits: Digits, n: nat)
    requires IsDigitTable(digits)
    ensures AllDigits(digits, Decimal(n)) && DecimalValue(digits, Decimal(n)) == n && Decimal(n) != []
    ensures '0' <= Decimal(n)[|Decimal(n)| - 1] <= '9'
  {
    if n >= 10 {
      DecimalRoundTrip(digits, n / 10);
      assert Decimal(n)[..|Decimal(n)| - 1] == Decimal(n / 10);
    }
  }

  /** Trimming on the left stops at the latest at a character that is kept. */
  lemma {:induction false} TrimLeftOf(a: string, b: string, strip: Strip)
    requires b != [] && !strip.Has(b[0])
    ensures TrimLeft(a + b, strip) == TrimLeft(a, strip) + b
  {
    if a == [] {
      assert a + b == b;
    } else if strip.Has(a[0]) {
      assert (a + b)[1..] == a[1..] + b;
      TrimLeftOf(a[1..], b, strip);
    }
  }

  lemma {:induction false} TrimLeftAll(a: string, strip: Strip)
    requires strip.All(a)
    ensures TrimLeft(a, strip) == []
  {
    if a != [] {
      TrimLeftAll(a[1..], strip);
    }
  }

  lemma {:induction false} TrimRightOf(a: string, b: string, strip: Strip)
    requires strip.All(b) && a != [] && !strip.Has(a[|a| - 1])
    ensures TrimRight(a + b, strip) == a
  {
    if b == [] {
      assert a + b == a;
    } else {
      assert (a + b)[..|a + b| - 1] == a + b[..|b| - 1];
      TrimRightOf(a, b[..|b| - 1], strip);
    }
  }

  /** Padding around a core that neither starts nor ends with padding comes off exactly. */
  lemma TrimPadded(before: string, core: string, after: string, strip: Strip)
    requires strip.All(before) && strip.All(after)
    requires core != [] && !strip.Has(core[0]) && !strip.Has(core[|core| - 1])
    ensures Trim(before + core + after, strip) == core
  {
    assert before + core + after == before + (core + after);
    TrimLeftOf(before, core + after, strip);
    TrimLeftAll(before, strip);
    assert [] + (core + after) == core + after;
    TrimRightOf(core, after, strip);
  }

  lemma {:induction false} TrailingDigitsOf(digits: Digits, a: string, ds: string)
    requires AllDigits(digits, ds) && a != [] && digits(a[|a| - 1]).None?
    ensures TrailingDigits(digits, a + ds) == ds
  {
    if ds == [] {
      assert a + ds == a;
    } else {
      assert (a + ds)[..|a + ds| - 1] == a + ds[..|ds| - 1];
      TrailingDigitsOf(digits, a, ds[..|ds| - 1]);
    }
  }

  /** `SearchVersion` finds the version of every string that ends in `-v` and digits ... */
  lemma SearchVersionExact(digits: Digits, s: string, prefix: string, ds: string)
    requires IsDigitTable(digits)
    requires AllDigits(digits, ds) && ds != [] && DropFinalNewline(s) == prefix + "-v" + ds
    ensures SearchVersion(digits, s) == Some(DecimalValue(digits, ds))
  {
    TrailingDigitsOf(digits, prefix + "-v", ds);
    var cut := |prefix| + 2;
    assert DropFinalNewline(s)[cut - 2..cut] == "-v";
  }

  lemma VersionSuffixFound(digits: Digits, prefix: string, ds: string)
    requires IsDigitTable(digits) && digits('\n').None? && AllDigits(digits, ds) && ds != []
    ensures SearchVersion(digits, prefix + "-v" + ds) == Some(DecimalValue(digits, ds))
    ensures SearchVersion(digits, prefix + "-v" + ds + "\n") == Some(DecimalValue(digits, ds))
  {
    SearchVersionExact(digits, prefix + "-v" + ds, prefix, ds);
    var s := prefix + "-v" + ds + "\n";
    assert s[..|s| - 1] == prefix + "-v" + ds;
    SearchVersionExact(digits, s, prefix, ds);
  }

  /** ... and of no other string. */
  lemma SearchVersionOnly(digits: Digits, s: string)
    requires SearchVersion(digits, s).Some?
    ensures exists prefix: string, ds: string ::
              AllDigits(digits, ds) && ds != [] && SearchVersion(digits, s).value == DecimalValue(digits, ds) &&
              (s == prefix + "-v" + ds || s == prefix + "-v" + ds + "\n")
  {
    var t := DropFinalNewline(s);
    var ds := TrailingDigits(digits, t);
    var cut := |t| - |ds|;
    assert t == t[..cut - 2] + "-v" + ds;
    assert s == t || s == t + "\n";
  }

  /** The quotes around a printed ETag come off without touching the version, whatever the code holds. */
  lemma UnquotedEtag(digits: Digits, code: string, version: nat)
    requires IsDigitTable(digits)
    ensures SearchVersion(digits, Trim(PrintEtag(code, version), Quotes)) == Some(version)
  {
    var tail := "-v" + Decimal(version);
    var quoted := "\"" + code;
    DecimalRoundTrip(digits, version);
    assert PrintEtag(code, version) == quoted + (tail + "\"");
    TrimLeftOf(quoted, tail + "\"", Quotes);
    var prefix := TrimLeft(quoted, Quotes);
    assert prefix + (tail + "\"") == (prefix + tail) + "\"";
    var last := Decimal(version)[|Decimal(version)| - 1];
    assert (prefix + tail)[|prefix + tail| - 1] == last;
    TrimRightOf(prefix + tail, "\"", Quotes);
    assert prefix + tail == prefix + "-v" + Decimal(version);
    SearchVersionExact(digits, prefix + tail, prefix, Decimal(version));
  }

  lemma PrintedEtagShape(code: string, version: nat)
    ensures var e := PrintEtag(code, version);
            |e| >= 2 && e[0] == '"' && e[|e| - 1] == '"' && !("W/" <= e) && e != "*"
  {
  }

  /** Round trip: a printed ETag with any padding parses back to its version ... */
  lemma EtagRoundTrip(digits: Digits, code: string, version: nat, before: string, after: string)
    requires IsDigitTable(digits) && Whitespace.All(before) && Whitespace.All(after)
    ensures ParseExpectedVersion(digits, Some(before + PrintEtag(code, version) + after)) == Ok(Some(version))
  {
    PrintedEtagShape(code, version);
    TrimPadded(before, PrintEtag(code, version), after, Whitespace);
    UnquotedEtag(digits, code, version);
  }

  /** ... and so does one marked weak. */
  lemma WeakEtagRoundTrip(digits: Digits, code: string, version: nat, before: string, between: string, after: string)
    requires IsDigitTable(digits) && Whitespace.All(before) && Whitespace.All(between) && Whitespace.All(after)
    ensures ParseExpectedVersion(digits, Some(before + ("W/" + between + PrintEtag(code, version)) + after)) ==
            Ok(Some(version))
  {
    var etag := PrintEtag(code, version);
    var weak := "W/" + between + etag;
    PrintedEtagShape(code, version);
    assert weak[|weak| - 1] == etag[|etag| - 1];
    TrimPadded(before, weak, after, Whitespace);
    assert weak[..2] == "W/" && weak[2..] == between + etag + "";
    TrimPadded(between, etag, "", Whitespace);
    UnquotedEtag(digits, code, version);
  }

  /** A wildcard or missing precondition never lets a write through. */
  lemma WildcardIsNoPrecondition(digits: Digits, before: string, after: string, current: nat)
    requires Whitespace.All(before) && Whitespace.All(after)
    ensures ParseExpectedVersion(digits, Some(before + "*" + after)) == Ok(None)
    ensures RequireVersion(current, None) == Some(PreconditionRequired) && PreconditionRequired.StatusCode() == 428
  {
    TrimPadded(before, "*", after, Whitespace);
  }

  /** Two printed ETags are the same only for the same code and version. */
  lemma EtagsAreDistinct(digits: Digits, code1: string, version1: nat, code2: string, version2: nat)
    requires IsDigitTable(digits)
    requires PrintEtag(code1, version1) == PrintEtag(code2, version2)
    ensures code1 == code2 && version1 == version2
  {
    UnquotedEtag(digits, code1, version1);
    UnquotedEtag(digits, code2, version2);
    var tail := "-v" + Decimal(version1) + "\"";
    assert PrintEtag(code1, version1) == "\"" + code1 + tail && PrintEtag(code2, version2) == "\"" + code2 + tail;
    assert ("\"" + code1 + tail)[1..1 + |code1|] == code1 && ("\"" + code2 + tail)[1..1 + |code2|] == code2;
  }

  /** Neither blank nor padded: what stripping leaves of a header. */
  predicate IsCore(core: string) {
    core != [] && !Whitespace.Has(core[0]) && !Whitespace.Has(core[|core| - 1])
  }

  /** What a core without a weak marker means. */
  function CoreMeans(digits: Digits, core: string): Result<Option<nat>, ActionError> {
    if core == "*" then Ok(None)
    else
      match SearchVersion(digits, Trim(core, Quotes))
      case None => Err(InvalidPrecondition)
      case Some(version) => Ok(Some(version))
  }

  lemma WeakCoreMeans(digits: Digits, header: string, between: string, core: string)
    requires Whitespace.All(between) && IsCore(core) && Trim(header, Whitespace) == "W/" + between + core
    ensures ParseExpectedVersion(digits, Some(header)) == CoreMeans(digits, core)
  {
    var weak := "W/" + between + core;
    assert weak[..2] == "W/" && weak[2..] == between + core + "";
    TrimPadded(between, core, "", Whitespace);
  }

  lemma WeakIsCore(between: string, core: string)
    requires IsCore(core)
    ensures IsCore("W/" + between + core)
  {
    var weak := "W/" + between + core;
    assert weak[|weak| - 1] == core[|core| - 1];
  }

  /** Every header there is: none at all; a padded core; a padded weak core; or nothing but padding and a weak marker. */
  lemma HeadersMean(digits: Digits, before: string, between: string, core: string, after: string)
    requires Whitespace.All(before) && Whitespace.All(between) && Whitespace.All(after) && IsCore(core)
    ensures ParseExpectedVersion(digits, None) == Ok(None)
    ensures !("W/" <= core) ==> ParseExpectedVersion(digits, Some(before + core + after)) == CoreMeans(digits, core)
    ensures ParseExpectedVersion(digits, Some(before + ("W/" + between + core) + after)) == CoreMeans(digits, core)
  {
    TrimPadded(before, core, after, Whitespace);
    WeakIsCore(between, core);
    TrimPadded(before, "W/" + between + core, after, Whitespace);
    WeakCoreMeans(digits, before + ("W/" + between + core) + after, between, core);
  }

  lemma NothingMeansNothing(digits: Digits)
    ensures CoreMeans(digits, []) == Err(InvalidPrecondition)
  {
    assert Trim([], Quotes) == [] && TrailingDigits(digits, []) == [];
  }

  lemma ParseStripped(digits: Digits, header: string, stripped: string)
    requires Trim(header, Whitespace) == stripped
    ensures ParseExpectedVersion(digits, Some(header)) ==
            CoreMeans(digits, if "W/" <= stripped then Trim(stripped[2..], Whitespace) else stripped)
  {
  }

  lemma BlankHeaderIsRefused(digits: Digits, blank: string)
    requires Whitespace.All(blank)
    ensures ParseExpectedVersion(digits, Some(blank)) == Err(InvalidPrecondition)
  {
    TrimLeftAll(blank, Whitespace);
    NothingMeansNothing(digits);
    ParseStripped(digits, blank, []);
  }

  lemma MarkerAloneIsRefused(digits: Digits, header: string)
    requires Trim(header, Whitespace) == "W/"
    ensures ParseExpectedVersion(digits, Some(header)) == Err(InvalidPrecondition)
  {
    NothingMeansNothing(digits);
    ParseStripped(digits, header, "W/");
    assert "W/"[2..] == [];
  }

  lemma BareMarkerIsRefused(digits: Digits, before: string, after: string)
    requires Whitespace.All(before) && Whitespace.All(after)
    ensures ParseExpectedVersion(digits, Some(before + "W/" + after)) == Err(InvalidPrecondition)
  {
    TrimPadded(before, "W/", after, Whitespace);
    MarkerAloneIsRefused(digits, before + "W/" + after);
  }
}
