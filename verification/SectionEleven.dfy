/** Section 11 of Semantic Versioning 2.0.0 in its own terms: where two versions first differ, and
    what decides there. */
module SectionEleven {
  import opened Protocol
  import opened SemVer
  import opened VersionOrder

  // ---------- The rules ----------

  // Text by code unit: at the first difference, or where one ends.
  ghost predicate TextBelow(s: string, t: string) {
    exists k: nat :: k <= |s| && k <= |t| && s[..k] == t[..k] && (if k < |s| then k < |t| && s[k] < t[k] else k < |t|)
  }

  // Rules 11.4.1 to 11.4.3: digits by value, digits below text, text by code unit.
  ghost predicate IdentifierBelow(x: string, y: string) {
    if Digits(x) then !Digits(y) || Value(x) < Value(y) else !Digits(y) && TextBelow(x, y)
  }

  predicate IdentifierSame(x: string, y: string) {
    if Digits(x) then Digits(y) && Value(x) == Value(y) else x == y
  }

  predicate SameFront(xs: seq<string>, ys: seq<string>, k: nat)
    requires k <= |xs| && k <= |ys|
  {
    forall j :: 0 <= j < k ==> IdentifierSame(xs[j], ys[j])
  }

  // Rule 11.4: the first identifiers that differ decide, and if none does, the longer list is greater.
  ghost predicate ListBelow(xs: seq<string>, ys: seq<string>) {
    exists k: nat :: k <= |xs| && k <= |ys| && SameFront(xs, ys, k) &&
      (if k < |xs| then k < |ys| && IdentifierBelow(xs[k], ys[k]) else k < |ys|)
  }

  // Rule 11.3: a version with a pre-release part is below the same version without one.
  ghost predicate PreBelow(xs: seq<string>, ys: seq<string>) { xs != [] && (ys == [] || ListBelow(xs, ys)) }

  /** Rule 11.2: major, then minor, then patch, by value; then the pre-release parts. */
  ghost predicate Below(a: Parts, b: Parts)
    requires WellFormed(a) && WellFormed(b)
  {
    if Value(a.major) != Value(b.major) then Value(a.major) < Value(b.major)
    else if Value(a.minor) != Value(b.minor) then Value(a.minor) < Value(b.minor)
    else if Value(a.patch) != Value(b.patch) then Value(a.patch) < Value(b.patch)
    else PreBelow(Prerelease(a), Prerelease(b))
  }

  // ---------- Text ----------

  lemma TextBelowNext(s: string, t: string)
    requires s != "" && t != "" && s[0] == t[0]
    ensures TextBelow(s, t) <==> TextBelow(s[1..], t[1..])
  {
    if TextBelow(s, t) {
      var k: nat :| k <= |s| && k <= |t| && s[..k] == t[..k] && (if k < |s| then k < |t| && s[k] < t[k] else k < |t|);
      assert k > 0;
      assert s[1..][..k - 1] == s[..k][1..] && t[1..][..k - 1] == t[..k][1..];
    }
    if TextBelow(s[1..], t[1..]) {
      var u, v := s[1..], t[1..];
      var k: nat :| k <= |u| && k <= |v| && u[..k] == v[..k] && (if k < |u| then k < |v| && u[k] < v[k] else k < |v|);
      assert s[..k + 1] == [s[0]] + u[..k] && t[..k + 1] == [t[0]] + v[..k];
    }
  }

  lemma TextBelowFirst(s: string, t: string)
    requires s == "" || t == "" || s[0] != t[0]
    ensures TextBelow(s, t) <==> t != "" && (s == "" || s[0] < t[0])
  {
    assert s[..0] == t[..0];
  }

  lemma {:induction false} TextDecides(s: string, t: string)
    ensures CompareText(s, t) < 0 <==> TextBelow(s, t)
    ensures CompareText(s, t) == 0 <==> s == t
  {
    hide TextBelow;
    if s != "" && t != "" && s[0] == t[0] {
      TextBelowNext(s, t);
      TextDecides(s[1..], t[1..]);
      assert s == [s[0]] + s[1..] && t == [t[0]] + t[1..];
    } else {
      TextBelowFirst(s, t);
    }
  }

  // ---------- Identifiers ----------

  lemma KeyDecides(x: string, y: string)
    ensures CompareKeys(SpecKey(x), SpecKey(y)) < 0 <==> IdentifierBelow(x, y)
    ensures CompareKeys(SpecKey(x), SpecKey(y)) == 0 <==> IdentifierSame(x, y)
  {
    hide TextBelow, CompareText, Digits, Value;
    TextDecides(x, y);
  }

  function Keys(ids: seq<string>): seq<Key> { seq(|ids|, i requires 0 <= i < |ids| => SpecKey(ids[i])) }

  lemma ListBelowNext(xs: seq<string>, ys: seq<string>)
    requires xs != [] && ys != [] && IdentifierSame(xs[0], ys[0]) && !IdentifierBelow(xs[0], ys[0])
    ensures ListBelow(xs, ys) <==> ListBelow(xs[1..], ys[1..])
  {
    hide IdentifierSame, IdentifierBelow;
    if ListBelow(xs, ys) {
      var k: nat :| k <= |xs| && k <= |ys| && SameFront(xs, ys, k) &&
        (if k < |xs| then k < |ys| && IdentifierBelow(xs[k], ys[k]) else k < |ys|);
      assert k > 0;
      assert forall j :: 0 <= j < k - 1 ==> xs[1..][j] == xs[j + 1] && ys[1..][j] == ys[j + 1];
      assert SameFront(xs[1..], ys[1..], k - 1);
    }
    if ListBelow(xs[1..], ys[1..]) {
      var us, vs := xs[1..], ys[1..];
      var k: nat :| k <= |us| && k <= |vs| && SameFront(us, vs, k) &&
        (if k < |us| then k < |vs| && IdentifierBelow(us[k], vs[k]) else k < |vs|);
      assert forall j :: 0 < j < k + 1 ==> xs[j] == us[j - 1] && ys[j] == vs[j - 1];
      assert SameFront(xs, ys, k + 1);
    }
  }

  lemma ListBelowFirst(xs: seq<string>, ys: seq<string>)
    requires xs == [] || ys == [] || !IdentifierSame(xs[0], ys[0])
    ensures ListBelow(xs, ys) <==> ys != [] && (xs == [] || IdentifierBelow(xs[0], ys[0]))
  {
    hide IdentifierSame, IdentifierBelow;
    assert SameFront(xs, ys, 0);
  }

  lemma {:induction false} ListDecides(xs: seq<string>, ys: seq<string>)
    ensures CompareLists(Keys(xs), Keys(ys)) < 0 <==> ListBelow(xs, ys)
  {
    hide ListBelow, IdentifierBelow, IdentifierSame, CompareKeys, SpecKey;
    var us, vs := Keys(xs), Keys(ys);
    if xs != [] && ys != [] {
      KeyDecides(xs[0], ys[0]);
      if CompareKeys(us[0], vs[0]) == 0 {
        ListBelowNext(xs, ys);
        ListDecides(xs[1..], ys[1..]);
        assert us[1..] == Keys(xs[1..]) && vs[1..] == Keys(ys[1..]);
      } else {
        ListBelowFirst(xs, ys);
      }
    } else {
      ListBelowFirst(xs, ys);
    }
  }

  // ---------- Versions ----------

  lemma ViewDecides(a: Parts, b: Parts)
    requires WellFormed(a) && WellFormed(b)
    ensures Compare(SpecView(a), SpecView(b)) < 0 <==> Below(a, b)
  {
    hide ListBelow, CompareLists, Prerelease, Value, SpecKey;
    ListDecides(Prerelease(a), Prerelease(b));
    assert SpecView(a).ids == Keys(Prerelease(a)) && SpecView(b).ids == Keys(Prerelease(b));
  }

  // A string that names a plain version.
  predicate PlainString(raw: string) { Valid(raw) && WellFormed(Parse(raw).value) && PlainVersion(Parse(raw).value) }

  /** Between plain versions the update manager's comparison is section 11, in both directions. */
  lemma PrecedenceIsSectionEleven(left: string, right: string)
    requires PlainString(left) && PlainString(right)
    ensures Precedence(left, right) < 0 <==> Below(Parse(left).value, Parse(right).value)
    ensures Precedence(left, right) > 0 <==> Below(Parse(right).value, Parse(left).value)
  {
    hide Below, Compare, CodeView, SpecView, WellFormed, PlainVersion;
    var a, b := Parse(left).value, Parse(right).value;
    AgreesWhenPlain(a, b);
    ViewDecides(a, b);
    ViewDecides(b, a);
    VersionsOrdered(SpecView(a), SpecView(b), SpecView(b));
  }

  // ---------- The parts of a version ----------

  function Dotted(fields: seq<string>): string {
    if fields == [] then "" else if |fields| == 1 then fields[0] else fields[0] + "." + Dotted(fields[1..])
  }

  predicate NoDot(s: string) { forall i :: 0 <= i < |s| ==> s[i] != '.' }

  /** Splitting at the dots leaves none, and joining the parts with dots gives the text back. */
  lemma {:induction false} FieldsAreSplit(s: string)
    ensures Dotted(Fields(s)) == s
    ensures forall i :: 0 <= i < |Fields(s)| ==> NoDot(Fields(s)[i])
    decreases |s|
  {
    hide DotAt;
    var d := DotAt(s);
    if d < |s| {
      FieldsAreSplit(s[d + 1..]);
      assert Fields(s)[1..] == Fields(s[d + 1..]);
      assert s == s[..d] + "." + s[d + 1..];
    }
  }
}
