/** Which release the update manager offers. */
module ReleaseChoice {
  import opened Protocol
  import opened SemVer
  import opened VersionOrder

  /** A release as far as the choice looks at it; `installer` is the first asset with an acceptable
      name and address. */
  datatype Release = Release(draft: bool, prerelease: bool, tag: string, installer: Option<string>)

  datatype Candidate = Candidate(version: string, installer: string)

  // The tag without surrounding space and without its first 'v'.
  function VersionOf(r: Release): string {
    var version := Trimmed(r.tag);
    if version != "" && version[0] == 'v' then version[1..] else version
  }

  predicate Eligible(r: Release, current: string) {
    && !r.draft && (r.prerelease ==> '-' in current)
    && Valid(VersionOf(r)) && Precedence(VersionOf(r), current) > 0
    && r.installer.Some?
  }

  function Offer(r: Release): Candidate { Candidate(VersionOf(r), if r.installer.Some? then r.installer.value else "") }

  // The release at `i` is the first of the greatest among the first n.
  predicate FirstGreatest(releases: seq<Release>, current: string, n: nat, i: nat)
    requires n <= |releases|
  {
    && i < n && Eligible(releases[i], current)
    && (forall j :: 0 <= j < n && Eligible(releases[j], current) ==>
      Precedence(VersionOf(releases[j]), VersionOf(releases[i])) <= 0)
    && (forall j :: 0 <= j < i && Eligible(releases[j], current) ==>
      Precedence(VersionOf(releases[j]), VersionOf(releases[i])) < 0)
  }

  predicate NoneEligible(releases: seq<Release>, current: string, n: nat)
    requires n <= |releases|
  {
    forall j :: 0 <= j < n ==> !Eligible(releases[j], current)
  }

  /** What the loop must find among the first n releases. */
  ghost predicate Best(releases: seq<Release>, current: string, n: nat, best: Option<Candidate>)
    requires n <= |releases|
  {
    if best.None? then NoneEligible(releases, current, n)
    else exists i: nat :: FirstGreatest(releases, current, n, i) && best.value == Offer(releases[i])
  }

  // ---------- One more release ----------

  lemma Skipped(releases: seq<Release>, current: string, n: nat, best: Option<Candidate>)
    requires n < |releases| && Best(releases, current, n, best) && !Eligible(releases[n], current)
    ensures Best(releases, current, n + 1, best)
  {
    hide Eligible, Precedence, VersionOf;
    if best.Some? {
      var i: nat :| FirstGreatest(releases, current, n, i) && best.value == Offer(releases[i]);
      assert FirstGreatest(releases, current, n + 1, i);
    }
  }

  lemma FirstFound(releases: seq<Release>, current: string, n: nat)
    requires n < |releases| && NoneEligible(releases, current, n) && Eligible(releases[n], current)
    ensures Best(releases, current, n + 1, Some(Offer(releases[n])))
  {
    hide Eligible, Precedence, VersionOf, Valid;
    EligibleVersion(releases[n], current);
    var v := VersionOf(releases[n]);
    PrecedenceIsTotalPreorder(v, v, v);
    assert FirstGreatest(releases, current, n + 1, n);
  }

  lemma EligibleVersion(r: Release, current: string)
    requires Eligible(r, current)
    ensures Valid(VersionOf(r)) && r.installer.Some? && Precedence(VersionOf(r), current) > 0
  {
  }

  lemma NotGreater(releases: seq<Release>, current: string, n: nat, i: nat)
    requires n < |releases| && FirstGreatest(releases, current, n, i)
    requires Precedence(VersionOf(releases[n]), VersionOf(releases[i])) <= 0
    ensures FirstGreatest(releases, current, n + 1, i)
  {
    hide Eligible, Precedence, VersionOf;
  }

  lemma Greater(releases: seq<Release>, current: string, n: nat, i: nat)
    requires n < |releases| && FirstGreatest(releases, current, n, i) && Eligible(releases[n], current)
    requires Precedence(VersionOf(releases[n]), VersionOf(releases[i])) > 0
    ensures FirstGreatest(releases, current, n + 1, n)
  {
    hide Eligible, Precedence, VersionOf, Valid;
    EligibleVersion(releases[n], current);
    EligibleVersion(releases[i], current);
    var u, v := VersionOf(releases[i]), VersionOf(releases[n]);
    PrecedenceIsTotalPreorder(u, v, v);
    PrecedenceIsTotalPreorder(v, v, v);
    forall j | 0 <= j < n && Eligible(releases[j], current) ensures Precedence(VersionOf(releases[j]), v) < 0 {
      EligibleVersion(releases[j], current);
      PrecedenceIsTotalPreorder(VersionOf(releases[j]), u, v);
    }
  }

  method HandleReleaseList(releases: seq<Release>, current: string) returns (best: Option<Candidate>)
    ensures Best(releases, current, |releases|, best)
  {
    hide Valid, Precedence, VersionOf;
    var allowPrerelease := '-' in current;
    best := None;
    for n := 0 to |releases|
      invariant Best(releases, current, n, best)
    {
      var release := releases[n];
      if release.draft || (release.prerelease && !allowPrerelease) {
        Skipped(releases, current, n, best);
        continue;
      }
      var version := VersionOf(release);
      var newer := CompareSemVer(version, current);
      if !Valid(version) || newer <= 0 || release.installer.None? {
        Skipped(releases, current, n, best);
        continue;
      }
      var candidate := Candidate(version, release.installer.value);
      if best.None? {
        FirstFound(releases, current, n);
        best := Some(candidate);
      } else {
        var ahead := CompareSemVer(candidate.version, best.value.version);
        ghost var i: nat :| FirstGreatest(releases, current, n, i) && best.value == Offer(releases[i]);
        if ahead > 0 {
          Greater(releases, current, n, i);
          best := Some(candidate);
        } else {
          NotGreater(releases, current, n, i);
        }
      }
    }
  }

  // ---------- What the choice means ----------

  /** Two lists of the same releases, in whatever order, offer versions of equal precedence, strictly
      newer than the current one. */
  lemma OrderDoesNotMatter(xs: seq<Release>, ys: seq<Release>, current: string, x: Option<Candidate>, y: Option<Candidate>)
    requires forall r :: r in xs <==> r in ys
    requires Best(xs, current, |xs|, x) && Best(ys, current, |ys|, y)
    ensures x.Some? <==> y.Some?
    ensures x.Some? ==> Precedence(x.value.version, y.value.version) == 0 && Precedence(x.value.version, current) > 0
  {
    hide Eligible, Precedence, VersionOf, Valid;
    if x.Some? && y.Some? {
      var i: nat :| FirstGreatest(xs, current, |xs|, i) && x.value == Offer(xs[i]);
      var j: nat :| FirstGreatest(ys, current, |ys|, j) && y.value == Offer(ys[j]);
      EligibleVersion(xs[i], current);
      BothGreatest(xs, ys, current, i, j);
    } else if x.Some? {
      Missed(xs, ys, current, x.value);
    } else if y.Some? {
      Missed(ys, xs, current, y.value);
    }
  }

  lemma Missed(xs: seq<Release>, ys: seq<Release>, current: string, x: Candidate)
    requires forall r :: r in xs ==> r in ys
    requires Best(xs, current, |xs|, Some(x))
    ensures !NoneEligible(ys, current, |ys|)
  {
    hide Eligible, Precedence, VersionOf, Valid;
    hide Eligible, Precedence, VersionOf;
    var i: nat :| FirstGreatest(xs, current, |xs|, i) && x == Offer(xs[i]);
    assert xs[i] in ys;
    var j :| 0 <= j < |ys| && ys[j] == xs[i];
  }

  lemma BothGreatest(xs: seq<Release>, ys: seq<Release>, current: string, i: nat, j: nat)
    requires forall r :: r in xs <==> r in ys
    requires FirstGreatest(xs, current, |xs|, i) && FirstGreatest(ys, current, |ys|, j)
    ensures Precedence(VersionOf(xs[i]), VersionOf(ys[j])) == 0
  {
    EligibleVersion(xs[i], current);
    EligibleVersion(ys[j], current);
    PrecedenceIsTotalPreorder(VersionOf(xs[i]), VersionOf(ys[j]), VersionOf(ys[j]));
    assert xs[i] in ys && ys[j] in xs;
    var i' :| 0 <= i' < |ys| && ys[i'] == xs[i];
    var j' :| 0 <= j' < |xs| && xs[j'] == ys[j];
  }

  // ---------- Where the order is not that of section 11 ----------

  lemma ReadsAs(raw: string, p: Parts)
    requires raw != "" && !IsSpace(raw[0]) && !IsSpace(raw[|raw| - 1])
    requires Matches(raw, p, "")
    ensures Parse(raw) == Some(p)
  {
    hide Scan;
    MatchIsScanned(raw, p, "");
  }

  const NEGATIVE := Parts("1", "0", "0", "-5")
  const TWO := Parts("1", "0", "0", "2")

  lemma NegativeFields()
    ensures Prerelease(NEGATIVE) == ["-5"] && Prerelease(TWO) == ["2"]
    ensures CodeKey("-5") == Number(-5) && SpecKey("-5") == Text("-5") && CodeKey("2") == SpecKey("2") == Number(2)
  {
    assert DotAt("-5") == 2 && DotAt("2") == 1;
    assert "-5"[1..] == "5" && "5"[..0] == "" && "2"[..0] == "";
    assert Value("5") == 5 && Value("2") == 2;
    assert !Digits("-5") by { assert !IsDigit("-5"[0]); }
  }

  lemma NegativeMatches()
    ensures Matches("1.0.0--5", NEGATIVE, "") && Matches("1.0.0-2", TWO, "")
  {
    hide Value;
    assert Core(NEGATIVE) == "1.0.0" && Core(TWO) == "1.0.0";
    assert "1.0.0" + Suffix("-5", "") == "1.0.0--5" && "1.0.0" + Suffix("2", "") == "1.0.0-2";
  }

  // One identifier each decides between two versions of the same core.
  lemma Decided(a: View, b: View)
    requires a.major == b.major && a.minor == b.minor && a.patch == b.patch && |a.ids| == |b.ids| == 1
    ensures Compare(a, b) == CompareKeys(a.ids[0], b.ids[0])
  {
    hide CompareKeys;
    assert CompareLists(a.ids[1..], b.ids[1..]) == 0;
  }

  lemma SameCore()
    requires WellFormed(NEGATIVE) && WellFormed(TWO)
    ensures var u, v := CodeView(NEGATIVE), CodeView(TWO); u.major == v.major && u.minor == v.minor && u.patch == v.patch
    ensures var u, v := SpecView(NEGATIVE), SpecView(TWO); u.major == v.major && u.minor == v.minor && u.patch == v.patch
  {
    hide Value, Fields;
  }

  lemma OneIdentifier(p: Parts, id: string)
    requires WellFormed(p) && Prerelease(p) == [id]
    ensures CodeView(p).ids == [CodeKey(id)] && SpecView(p).ids == [SpecKey(id)]
  {
    hide Value, CodeKey, SpecKey, Prerelease;
    var code, spec := CodeView(p), SpecView(p);
    assert |code.ids| == |spec.ids| == 1;
    assert code.ids[0] == CodeKey(Prerelease(p)[0]) && spec.ids[0] == SpecKey(Prerelease(p)[0]);
  }

  /** Section 11 puts "1.0.0--5" after "1.0.0-2", because "-5" is not made of digits only; the update
      manager puts it before. */
  lemma NegativeIdentifierMisplaced()
    ensures Precedence("1.0.0--5", "1.0.0-2") == -1
    ensures WellFormed(NEGATIVE) && WellFormed(TWO) && Compare(SpecView(NEGATIVE), SpecView(TWO)) == 1
  {
    hide Parse, Matches, CodeView, SpecView, Compare, Prerelease, CodeKey, SpecKey;
    NegativeMatches();
    ReadsAs("1.0.0--5", NEGATIVE);
    ReadsAs("1.0.0-2", TWO);
    MatchesWellFormed("1.0.0--5", NEGATIVE);
    MatchesWellFormed("1.0.0-2", TWO);
    SameCore();
    NegativeFields();
    OneIdentifier(NEGATIVE, "-5");
    OneIdentifier(TWO, "2");
    Decided(CodeView(NEGATIVE), CodeView(TWO));
    Decided(SpecView(NEGATIVE), SpecView(TWO));
  }

  lemma MatchesWellFormed(raw: string, p: Parts)
    requires Matches(raw, p, "")
    ensures WellFormed(p)
  {
  }
}
