/** Version strings as the update manager reads and orders them, beside the order of section 11 of
    Semantic Versioning 2.0.0. */
module SemVer {
  import opened Protocol

  // ---------- Characters ----------

  predicate IsDigit(c: char) { '0' <= c <= '9' }

  predicate IsIdentifier(c: char) { IsDigit(c) || 'a' <= c <= 'z' || 'A' <= c <= 'Z' || c == '.' || c == '-' }

  predicate Digits(s: string) { s != "" && forall i :: 0 <= i < |s| ==> IsDigit(s[i]) }

  predicate Identifiers(s: string) { s != "" && forall i :: 0 <= i < |s| ==> IsIdentifier(s[i]) }

  function DigitValue(c: char): nat
    requires IsDigit(c)
  {
    c as nat - '0' as nat
  }

  function Value(s: string): nat
    requires forall i :: 0 <= i < |s| ==> IsDigit(s[i])
  {
    if s == "" then 0 else 10 * Value(s[..|s| - 1]) + DigitValue(s[|s| - 1])
  }

  // ---------- Reading ----------

  /** The captured groups of the pattern; `pre` is empty without a pre-release part. */
  datatype Parts = Parts(major: string, minor: string, patch: string, pre: string)

  predicate WellFormed(p: Parts) { Digits(p.major) && Digits(p.minor) && Digits(p.patch) && (p.pre == "" || Identifiers(p.pre)) }

  function Core(p: Parts): string { p.major + "." + p.minor + "." + p.patch }

  function BuildPart(build: string): string { if build == "" then "" else "+" + build }

  function Suffix(pre: string, build: string): string { if pre == "" then BuildPart(build) else "-" + pre + BuildPart(build) }

  /** The pattern ^v?(\d+)\.(\d+)\.(\d+)(?:-([0-9A-Za-z.-]+))?(?:\+[0-9A-Za-z.-]+)?$ as a relation. */
  predicate Matches(raw: string, p: Parts, build: string) {
    && WellFormed(p) && (build == "" || Identifiers(build))
    && (raw == Core(p) + Suffix(p.pre, build) || raw == "v" + Core(p) + Suffix(p.pre, build))
  }

  // The length of the longest run of digits, or of identifier characters, at the front.
  function DigitRun(s: string): (n: nat)
    ensures n <= |s| && (forall i :: 0 <= i < n ==> IsDigit(s[i])) && (n < |s| ==> !IsDigit(s[n]))
  {
    if s == "" || !IsDigit(s[0]) then 0 else 1 + DigitRun(s[1..])
  }

  function IdentifierRun(s: string): (n: nat)
    ensures n <= |s| && (forall i :: 0 <= i < n ==> IsIdentifier(s[i])) && (n < |s| ==> !IsIdentifier(s[n]))
  {
    if s == "" || !IsIdentifier(s[0]) then 0 else 1 + IdentifierRun(s[1..])
  }

  // A number and what follows it.
  function ScanNumber(s: string): Option<(string, string)> {
    if DigitRun(s) == 0 then None else Some((s[..DigitRun(s)], s[DigitRun(s)..]))
  }

  function ScanDotted(s: string): Option<(string, string)> {
    if s == "" || s[0] != '.' then None else ScanNumber(s[1..])
  }

  // The build part, which must reach the end.
  predicate ScanBuild(s: string) { s == "" || (s[0] == '+' && Identifiers(s[1..])) }

  function ScanPre(s: string): Option<string> {
    if s == "" || s[0] != '-' then (if ScanBuild(s) then Some("") else None)
    else
      var n := IdentifierRun(s[1..]);
      if n == 0 || !ScanBuild(s[1 + n..]) then None else Some(s[1..1 + n])
  }

  function Scan(raw: string): Option<Parts> {
    var s := if raw != "" && raw[0] == 'v' then raw[1..] else raw;
    match ScanNumber(s)
    case None => None
    case Some((major, s1)) =>
      match ScanDotted(s1)
      case None => None
      case Some((minor, s2)) =>
        match ScanDotted(s2)
        case None => None
        case Some((patch, s3)) =>
          match ScanPre(s3)
          case None => None
          case Some(pre) => Some(Parts(major, minor, patch, pre))
  }

  // QString::trimmed, over the ASCII white space.
  predicate IsSpace(c: char) { c == ' ' || c == '\t' || c == '\n' || c == '\r' || c == '\U{0B}' || c == '\U{0C}' }

  function Trimmed(s: string): string
    decreases |s|
  {
    if s == "" then ""
    else if IsSpace(s[0]) then Trimmed(s[1..])
    else if IsSpace(s[|s| - 1]) then Trimmed(s[..|s| - 1])
    else s
  }

  function Parse(raw: string): Option<Parts> { Scan(Trimmed(raw)) }

  predicate Valid(raw: string) { Parse(raw).Some? }

  // ---------- The scanner is the pattern ----------

  lemma RunOfDigits(number: string, rest: string)
    requires Digits(number) && (rest == "" || !IsDigit(rest[0]))
    ensures ScanNumber(number + rest) == Some((number, rest))
    ensures ScanDotted("." + number + rest) == Some((number, rest))
  {
    var s := number + rest;
    assert forall i :: 0 <= i < |number| ==> s[i] == number[i];
    assert rest != "" ==> s[|number|] == rest[0];
    assert DigitRun(s) == |number|;
    assert ("." + number + rest)[1..] == s;
  }

  lemma RunOfIdentifiers(pre: string, rest: string)
    requires Identifiers(pre) && (rest == "" || !IsIdentifier(rest[0]))
    ensures IdentifierRun(pre + rest) == |pre|
  {
    var s := pre + rest;
    assert forall i :: 0 <= i < |pre| ==> s[i] == pre[i];
    assert rest != "" ==> s[|pre|] == rest[0];
  }

  lemma ScanBuildPart(build: string)
    requires build == "" || Identifiers(build)
    ensures ScanBuild(BuildPart(build))
    ensures BuildPart(build) == "" || BuildPart(build)[0] == '+'
  {
    assert build == "" || BuildPart(build)[1..] == build;
  }

  lemma ScanSuffix(pre: string, build: string)
    requires (pre == "" || Identifiers(pre)) && (build == "" || Identifiers(build))
    ensures ScanPre(Suffix(pre, build)) == Some(pre)
  {
    hide ScanBuild, BuildPart, Identifiers, IdentifierRun;
    var tail := BuildPart(build);
    ScanBuildPart(build);
    if pre != "" {
      var s := "-" + pre + tail;
      assert s[1..] == pre + tail;
      RunOfIdentifiers(pre, tail);
      PreNotEmpty(pre);
      assert s[1 + |pre|..] == tail && s[1..1 + |pre|] == pre;
    }
  }

  lemma PreNotEmpty(pre: string)
    requires Identifiers(pre)
    ensures |pre| > 0
  {
  }

  lemma CoreSpelled(p: Parts, tail: string)
    ensures Core(p) + tail == p.major + ("." + p.minor + ("." + p.patch + tail))
  {
  }

  lemma ScanCore(p: Parts, build: string)
    requires WellFormed(p) && (build == "" || Identifiers(build))
    ensures Scan(Core(p) + Suffix(p.pre, build)) == Some(p)
  {
    hide ScanPre, ScanNumber, ScanDotted, Core;
    var tail := Suffix(p.pre, build);
    assert tail == "" || tail[0] == '-' || tail[0] == '+';
    var s2 := "." + p.patch + tail;
    var s1 := "." + p.minor + s2;
    CoreSpelled(p, tail);
    assert IsDigit(p.major[0]) && (p.major + s1)[0] == p.major[0];
    RunOfDigits(p.major, s1);
    RunOfDigits(p.minor, s2);
    RunOfDigits(p.patch, tail);
    ScanSuffix(p.pre, build);
  }

  lemma MatchIsScanned(raw: string, p: Parts, build: string)
    requires Matches(raw, p, build)
    ensures Scan(raw) == Some(p)
  {
    hide Core, Suffix, Scan;
    var s := Core(p) + Suffix(p.pre, build);
    ScanCore(p, build);
    CoreStarts(p);
    SkipsPrefix(s);
    assert raw == s || raw == "v" + s;
  }

  lemma CoreStarts(p: Parts)
    requires WellFormed(p)
    ensures Core(p) != "" && Core(p)[0] != 'v'
  {
    assert IsDigit(p.major[0]);
  }

  lemma SkipsPrefix(s: string)
    requires s != "" && s[0] != 'v'
    ensures Scan("v" + s) == Scan(s)
  {
    assert ("v" + s)[1..] == s;
  }

  lemma NumberScanned(s: string)
    requires ScanNumber(s).Some?
    ensures Digits(ScanNumber(s).value.0) && s == ScanNumber(s).value.0 + ScanNumber(s).value.1
  {
  }

  lemma DottedScanned(s: string)
    requires ScanDotted(s).Some?
    ensures Digits(ScanDotted(s).value.0) && s == "." + ScanDotted(s).value.0 + ScanDotted(s).value.1
  {
    NumberScanned(s[1..]);
  }

  lemma BuildScanned(s: string) returns (build: string)
    requires ScanBuild(s)
    ensures (build == "" || Identifiers(build)) && s == BuildPart(build)
  {
    build := if s == "" then "" else s[1..];
  }

  lemma SuffixScanned(s: string) returns (build: string)
    requires ScanPre(s).Some?
    ensures ScanPre(s).value == "" || Identifiers(ScanPre(s).value)
    ensures (build == "" || Identifiers(build)) && s == Suffix(ScanPre(s).value, build)
  {
    hide ScanBuild, BuildPart;
    if s == "" || s[0] != '-' {
      build := BuildScanned(s);
    } else {
      var pre := ScanPre(s).value;
      build := BuildScanned(s[1 + |pre|..]);
      Rejoined(s, |pre|);
    }
  }

  lemma Rejoined(s: string, n: nat)
    requires 1 + n <= |s| && s[0] == '-'
    ensures s == "-" + s[1..1 + n] + s[1 + n..]
  {
  }

  lemma ScannedMatches(raw: string) returns (build: string)
    requires Scan(raw).Some?
    ensures Matches(raw, Scan(raw).value, build)
  {
    hide ScanNumber, ScanDotted, ScanPre, Suffix, Core;
    var s := if raw != "" && raw[0] == 'v' then raw[1..] else raw;
    NumberScanned(s);
    var (major, s1) := ScanNumber(s).value;
    DottedScanned(s1);
    var (minor, s2) := ScanDotted(s1).value;
    DottedScanned(s2);
    var (patch, s3) := ScanDotted(s2).value;
    build := SuffixScanned(s3);
    var p := Parts(major, minor, patch, ScanPre(s3).value);
    CoreSpelled(p, s3);
    Prefixed(raw, s, Core(p), s3);
  }

  lemma Prefixed(raw: string, s: string, core: string, tail: string)
    requires s == (if raw != "" && raw[0] == 'v' then raw[1..] else raw) && s == core + tail
    ensures raw == core + tail || raw == "v" + core + tail
  {
    assert raw == s || raw == "v" + s;
    assert "v" + (core + tail) == "v" + core + tail;
  }

  /** A string is read exactly when the pattern matches it, and then in the one way it can. */
  lemma ScanIsPattern(raw: string, p: Parts)
    ensures Scan(raw) == Some(p) <==> exists build :: Matches(raw, p, build)
  {
    hide Scan, Matches;
    if Scan(raw) == Some(p) {
      var build := ScannedMatches(raw);
    }
    forall build | Matches(raw, p, build) ensures Scan(raw) == Some(p) {
      MatchIsScanned(raw, p, build);
    }
  }
}
