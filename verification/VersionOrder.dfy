/** The order of versions: as the update manager computes it, as section 11 of Semantic
    Versioning 2.0.0 defines it, and exactly when the two are one. */
module VersionOrder {
  import opened Protocol
  import opened SemVer

  const INT_MAX := 0x7FFF_FFFF
  const LONG_MAX := 0x7FFF_FFFF_FFFF_FFFF

  // ---------- Identifiers ----------

  // Where the first dot stands, or the length.
  function DotAt(s: string): (n: nat)
    ensures n <= |s| && (forall i :: 0 <= i < n ==> s[i] != '.') && (n < |s| ==> s[n] == '.')
  {
    if s == "" || s[0] == '.' then 0 else 1 + DotAt(s[1..])
  }

  // QString::split at the dots, empty parts kept.
  function Fields(s: string): (fields: seq<string>)
    ensures |fields| > 0
    decreases |s|
  {
    if DotAt(s) == |s| then [s] else [s[..DotAt(s)]] + Fields(s[DotAt(s) + 1..])
  }

  function Prerelease(p: Parts): seq<string> { if p.pre == "" then [] else Fields(p.pre) }

  predicate Negative(id: string) { id != "" && id[0] == '-' && Digits(id[1..]) }

  // QString::toInt of a captured number: 0 when it does not fit.
  function ToInt(number: string): int
    requires Digits(number)
  {
    if Value(number) > INT_MAX then 0 else Value(number)
  }

  // QString::toLongLong of an identifier.
  function ToLongLong(id: string): Option<int> {
    if Digits(id) then (if Value(id) <= LONG_MAX then Some(Value(id)) else None)
    else if Negative(id) && Value(id[1..]) <= LONG_MAX + 1 then Some(0 - Value(id[1..]))
    else None
  }

  datatype Key = Number(n: int) | Text(s: string)

  function CodeKey(id: string): Key {
    match ToLongLong(id)
    case Some(n) => Number(n)
    case None => Text(id)
  }

  // Identifiers of digits only compare as numbers, all others as text.
  function SpecKey(id: string): Key { if Digits(id) then Number(Value(id)) else Text(id) }

  // ---------- The order ----------

  datatype View = View(major: int, minor: int, patch: int, ids: seq<Key>)

  function CodeView(p: Parts): View
    requires WellFormed(p)
  {
    var ids := Prerelease(p);
    View(ToInt(p.major), ToInt(p.minor), ToInt(p.patch), seq(|ids|, i requires 0 <= i < |ids| => CodeKey(ids[i])))
  }

  function SpecView(p: Parts): View
    requires WellFormed(p)
  {
    var ids := Prerelease(p);
    View(Value(p.major), Value(p.minor), Value(p.patch), seq(|ids|, i requires 0 <= i < |ids| => SpecKey(ids[i])))
  }

  function Sign(n: int): int { if n < 0 then -1 else if n == 0 then 0 else 1 }

  function CompareText(a: string, b: string): int {
    if a == "" || b == "" then Sign(|a| - |b|)
    else if a[0] != b[0] then (if a[0] < b[0] then -1 else 1)
    else CompareText(a[1..], b[1..])
  }

  function CompareKeys(a: Key, b: Key): int {
    match (a, b)
    case (Number(m), Number(n)) => Sign(m - n)
    case (Text(s), Text(t)) => CompareText(s, t)
    case (Number(_), Text(_)) => -1
    case (Text(_), Number(_)) => 1
  }

  function CompareLists(xs: seq<Key>, ys: seq<Key>): int {
    if xs == [] || ys == [] then Sign(|xs| - |ys|)
    else if CompareKeys(xs[0], ys[0]) != 0 then CompareKeys(xs[0], ys[0])
    else CompareLists(xs[1..], ys[1..])
  }

  // A release comes after its pre-releases.
  function ComparePre(xs: seq<Key>, ys: seq<Key>): int {
    if xs == [] && ys == [] then 0 else if xs == [] then 1 else if ys == [] then -1 else CompareLists(xs, ys)
  }

  function Compare(a: View, b: View): int {
    if a.major != b.major then Sign(a.major - b.major)
    else if a.minor != b.minor then Sign(a.minor - b.minor)
    else if a.patch != b.patch then Sign(a.patch - b.patch)
    else ComparePre(a.ids, b.ids)
  }

  // ---------- It is a total preorder ----------

  // Opposite ways round, and transitive: what every layer of the order keeps.
  predicate Ordered(ab: int, ba: int, bc: int, cb: int, ac: int, ca: int) {
    && ab == -ba && bc == -cb && ac == -ca
    && -1 <= ab <= 1 && -1 <= bc <= 1 && -1 <= ac <= 1
    && (ab <= 0 && bc <= 0 ==> ac <= 0 && (ac == 0 ==> ab == 0 && bc == 0))
    && (ab >= 0 && bc >= 0 ==> ac >= 0 && (ac == 0 ==> ab == 0 && bc == 0))
  }

  lemma {:induction false} TextOrdered(a: string, b: string, c: string)
    ensures Ordered(CompareText(a, b), CompareText(b, a), CompareText(b, c), CompareText(c, b), CompareText(a, c), CompareText(c, a))
    decreases |a| + |b| + |c|
  {
    if a != "" && b != "" && c != "" {
      TextOrdered(a[1..], b[1..], c[1..]);
    } else if a != "" && b != "" {
      TextOpposite(a, b);
    } else if b != "" && c != "" {
      TextOpposite(b, c);
    } else if a != "" && c != "" {
      TextOpposite(a, c);
    }
  }

  lemma {:induction false} TextOpposite(a: string, b: string)
    ensures CompareText(a, b) == -CompareText(b, a) && -1 <= CompareText(a, b) <= 1
  {
    if a != "" && b != "" {
      TextOpposite(a[1..], b[1..]);
    }
  }

  lemma KeysOrdered(a: Key, b: Key, c: Key)
    ensures Ordered(CompareKeys(a, b), CompareKeys(b, a), CompareKeys(b, c), CompareKeys(c, b), CompareKeys(a, c), CompareKeys(c, a))
  {
    hide CompareText;
    match (a, b, c)
    case (Text(s), Text(t), Text(u)) => TextOrdered(s, t, u);
    case (Text(s), Text(t), _) => TextOpposite(s, t);
    case (Text(s), _, Text(u)) => TextOpposite(s, u);
    case (_, Text(t), Text(u)) => TextOpposite(t, u);
    case _ =>
  }

  lemma {:induction false} ListsOpposite(xs: seq<Key>, ys: seq<Key>)
    ensures CompareLists(xs, ys) == -CompareLists(ys, xs) && -1 <= CompareLists(xs, ys) <= 1
  {
    hide CompareKeys;
    if xs != [] && ys != [] {
      KeysOrdered(xs[0], ys[0], ys[0]);
      ListsOpposite(xs[1..], ys[1..]);
    }
  }

  lemma {:induction false} ListsOrdered(xs: seq<Key>, ys: seq<Key>, zs: seq<Key>)
    ensures Ordered(CompareLists(xs, ys), CompareLists(ys, xs), CompareLists(ys, zs), CompareLists(zs, ys),
      CompareLists(xs, zs), CompareLists(zs, xs))
    decreases |xs| + |ys| + |zs|
  {
    hide CompareKeys;
    if xs != [] && ys != [] && zs != [] {
      KeysOrdered(xs[0], ys[0], zs[0]);
      ListsOrdered(xs[1..], ys[1..], zs[1..]);
    } else {
      ListsOpposite(xs, ys);
      ListsOpposite(ys, zs);
      ListsOpposite(xs, zs);
    }
  }

  /** The comparison is a total preorder: opposite the other way round and transitive, with ties only
      where both sides tie. */
  lemma VersionsOrdered(a: View, b: View, c: View)
    ensures Ordered(Compare(a, b), Compare(b, a), Compare(b, c), Compare(c, b), Compare(a, c), Compare(c, a))
  {
    hide CompareLists;
    ListsOrdered(a.ids, b.ids, c.ids);
  }

  // ---------- Agreement with section 11 ----------

  predicate Small(number: string)
    requires Digits(number)
  {
    Value(number) <= INT_MAX
  }

  // Digits that fit, or no minus sign before digits that fit.
  predicate Plain(id: string) {
    && (Digits(id) ==> Value(id) <= LONG_MAX)
    && (Negative(id) ==> Value(id[1..]) > LONG_MAX + 1)
  }

  /** What a publisher can check of a version before using it. */
  predicate PlainVersion(p: Parts)
    requires WellFormed(p)
  {
    && Small(p.major) && Small(p.minor) && Small(p.patch)
    && forall i :: 0 <= i < |Prerelease(p)| ==> Plain(Prerelease(p)[i])
  }

  lemma PlainKey(id: string)
    requires Plain(id)
    ensures CodeKey(id) == SpecKey(id)
  {
    hide Value;
    assert Digits(id) ==> !Negative(id);
  }

  lemma PlainView(p: Parts)
    requires WellFormed(p) && PlainVersion(p)
    ensures CodeView(p) == SpecView(p)
  {
    hide CodeKey, SpecKey, Plain, Value;
    forall i | 0 <= i < |Prerelease(p)| ensures CodeKey(Prerelease(p)[i]) == SpecKey(Prerelease(p)[i]) {
      PlainKey(Prerelease(p)[i]);
    }
  }

  /** Between plain versions the computed order is the order of section 11. */
  lemma AgreesWhenPlain(a: Parts, b: Parts)
    requires WellFormed(a) && WellFormed(b) && PlainVersion(a) && PlainVersion(b)
    ensures Compare(CodeView(a), CodeView(b)) == Compare(SpecView(a), SpecView(b))
  {
    hide CodeView, SpecView, Compare, PlainVersion;
    PlainView(a);
    PlainView(b);
  }

  predicate Agrees(a: Parts, b: Parts)
    requires WellFormed(a) && WellFormed(b)
  {
    Compare(CodeView(a), CodeView(b)) == Compare(SpecView(a), SpecView(b))
  }

  // The part of `s` before its field `i`, followed by `w`.
  function Replaced(s: string, i: nat, w: string): string
    requires i < |Fields(s)|
    decreases |s|
  {
    if i == 0 then w else s[..DotAt(s) + 1] + Replaced(s[DotAt(s) + 1..], i - 1, w)
  }

  lemma DotAfter(front: string, rest: string)
    requires forall i :: 0 <= i < |front| ==> front[i] != '.'
    ensures DotAt(front + "." + rest) == |front|
  {
    var s := front + "." + rest;
    assert forall i :: 0 <= i < |front| ==> s[i] == front[i];
    assert s[|front|] == '.';
  }

  lemma FieldsJoined(front: string, rest: string)
    requires forall i :: 0 <= i < |front| ==> front[i] != '.'
    ensures Fields(front + "." + rest) == [front] + Fields(rest)
  {
    hide DotAt;
    var s := front + "." + rest;
    DotAfter(front, rest);
    assert s[..|front|] == front && s[|front| + 1..] == rest;
  }

  lemma {:induction false} ReplacedFields(s: string, i: nat, w: string)
    requires i < |Fields(s)| && DotAt(w) == |w|
    ensures Fields(Replaced(s, i, w)) == Fields(s)[..i] + [w]
    decreases |s|
  {
    hide DotAt;
    if i > 0 {
      var d := DotAt(s);
      ReplacedFields(s[d + 1..], i - 1, w);
      assert s[..d + 1] == s[..d] + ".";
      FieldsJoined(s[..d], Replaced(s[d + 1..], i - 1, w));
    }
  }

  lemma {:induction false} ReplacedIdentifiers(s: string, i: nat, w: string)
    requires i < |Fields(s)| && (forall k :: 0 <= k < |s| ==> IsIdentifier(s[k])) && Identifiers(w)
    ensures Identifiers(Replaced(s, i, w))
    decreases |s|
  {
    hide IsIdentifier;
    if i > 0 {
      ReplacedIdentifiers(s[DotAt(s) + 1..], i - 1, w);
    }
  }

  lemma {:induction false} CommonPrefix(p: seq<Key>, x: Key, xs: seq<Key>, y: Key)
    requires CompareKeys(x, y) != 0
    ensures CompareLists(p + [x] + xs, p + [y]) == CompareKeys(x, y)
  {
    hide CompareKeys;
    if p != [] {
      KeysOrdered(p[0], p[0], p[0]);
      assert (p + [x] + xs)[1..] == p[1..] + [x] + xs && (p + [y])[1..] == p[1..] + [y];
      CommonPrefix(p[1..], x, xs, y);
    }
  }

  // Two views that first differ at identifier i are ordered by it.
  lemma DecidedAt(a: View, b: View, i: nat)
    requires a.major == b.major && a.minor == b.minor && a.patch == b.patch
    requires i < |a.ids| && |b.ids| == i + 1 && a.ids[..i] == b.ids[..i] && CompareKeys(a.ids[i], b.ids[i]) != 0
    ensures Compare(a, b) == CompareKeys(a.ids[i], b.ids[i])
  {
    hide CompareKeys;
    CommonPrefix(a.ids[..i], a.ids[i], a.ids[i + 1..], b.ids[i]);
    assert a.ids == a.ids[..i] + [a.ids[i]] + a.ids[i + 1..] && b.ids == a.ids[..i] + [b.ids[i]];
  }

  lemma OneDigit()
    ensures Digits("0") && Digits("1") && Value("0") == 0 && Value("1") == 1
  {
    assert "0"[..0] == "" && "1"[..0] == "";
  }

  lemma CoreWitness(a: Parts) returns (b: Parts)
    requires WellFormed(a) && !(Small(a.major) && Small(a.minor) && Small(a.patch))
    ensures WellFormed(b) && PlainVersion(b) && !Agrees(a, b)
  {
    hide Digits, Value, ComparePre;
    OneDigit();
    b := if !Small(a.major) then Parts("1", "0", "0", "")
      else if !Small(a.minor) then Parts(a.major, "1", "0", "")
      else Parts(a.major, a.minor, "1", "");
  }

  // The text that shows an identifier is not plain.
  function Rival(id: string): string { if Digits(id) then "-" else "1" }

  lemma RivalDisagrees(id: string)
    requires !Plain(id)
    ensures var w := Rival(id);
      && Identifiers(w) && DotAt(w) == |w| && Plain(w)
      && CompareKeys(CodeKey(id), CodeKey(w)) != 0 && CompareKeys(SpecKey(id), SpecKey(w)) != 0
      && CompareKeys(CodeKey(id), CodeKey(w)) != CompareKeys(SpecKey(id), SpecKey(w))
  {
    OneDigit();
    if Digits(id) {
      assert !Digits("-") && !Negative("-") && !Negative(id);
      assert IsDigit(id[0]);
    } else {
      assert Negative(id) && !Negative("1");
    }
  }

  lemma IdentifierWitness(a: Parts, i: nat) returns (b: Parts)
    requires WellFormed(a) && Small(a.major) && Small(a.minor) && Small(a.patch)
    requires i < |Prerelease(a)| && !Plain(Prerelease(a)[i])
    requires forall k :: 0 <= k < i ==> Plain(Prerelease(a)[k])
    ensures WellFormed(b) && PlainVersion(b) && !Agrees(a, b)
  {
    hide Digits, Value, Plain, Rival, CompareKeys, Compare, CodeKey, SpecKey, Fields, Identifiers;
    var id := Prerelease(a)[i];
    var w := Rival(id);
    RivalDisagrees(id);
    ReplacedFields(a.pre, i, w);
    IdentifiersApart(a.pre);
    ReplacedIdentifiers(a.pre, i, w);
    IdentifiersApart(Replaced(a.pre, i, w));
    b := a.(pre := Replaced(a.pre, i, w));
    assert Prerelease(b) == Prerelease(a)[..i] + [w];
    DecidedAt(CodeView(a), CodeView(b), i);
    DecidedAt(SpecView(a), SpecView(b), i);
  }

  lemma IdentifiersApart(s: string)
    requires Identifiers(s)
    ensures s != "" && forall k :: 0 <= k < |s| ==> IsIdentifier(s[k])
  {
  }

  lemma FirstNotPlain(ids: seq<string>, n: nat) returns (i: nat)
    requires n < |ids| && !Plain(ids[n])
    ensures i <= n && !Plain(ids[i]) && forall k :: 0 <= k < i ==> Plain(ids[k])
  {
    hide Plain;
    i := 0;
    while Plain(ids[i])
      invariant i <= n && forall k :: 0 <= k < i ==> Plain(ids[k])
      decreases n - i
    {
      i := i + 1;
    }
  }

  /** A version is ordered as section 11 orders it against every plain version exactly when it is
      plain itself. */
  lemma AgreesExactlyWhenPlain(a: Parts)
    requires WellFormed(a)
    ensures PlainVersion(a) <==> forall b :: WellFormed(b) && PlainVersion(b) ==> Agrees(a, b)
  {
    hide WellFormed, CodeView, SpecView, Compare, Small, Plain;
    if PlainVersion(a) {
      forall b | WellFormed(b) && PlainVersion(b) ensures Agrees(a, b) { AgreesWhenPlain(a, b); }
    } else if WellFormed(a) && !CoreSmall(a) {
      var b := CoreWitness(a);
    } else {
      var n :| 0 <= n < |Prerelease(a)| && !Plain(Prerelease(a)[n]);
      var i := FirstNotPlain(Prerelease(a), n);
      var b := IdentifierWitness(a, i);
    }
  }

  predicate CoreSmall(p: Parts)
    requires WellFormed(p)
  {
    Small(p.major) && Small(p.minor) && Small(p.patch)
  }

  // ---------- The comparison of the update manager ----------

  /** compareSemVer up to its sign; strings that are not versions compare equal to everything. */
  function Precedence(left: string, right: string): int {
    if !Valid(left) || !Valid(right) then 0
    else
      ParsedWellFormed(left);
      ParsedWellFormed(right);
      Compare(CodeView(Parse(left).value), CodeView(Parse(right).value))
  }

  lemma ParsedWellFormed(raw: string)
    requires Valid(raw)
    ensures WellFormed(Parse(raw).value)
  {
    hide Scan;
    var build := ScannedMatches(Trimmed(raw));
  }

  /** On version strings: opposite the other way round, and transitive. */
  lemma PrecedenceIsTotalPreorder(a: string, b: string, c: string)
    requires Valid(a) && Valid(b) && Valid(c)
    ensures Precedence(a, b) == -Precedence(b, a) && Precedence(a, a) == 0
    ensures Precedence(a, b) <= 0 && Precedence(b, c) <= 0 ==> Precedence(a, c) <= 0
    ensures Precedence(a, b) == 0 && Precedence(b, c) == 0 ==> Precedence(a, c) == 0
    ensures Precedence(a, b) < 0 && Precedence(b, c) <= 0 ==> Precedence(a, c) < 0
    ensures Precedence(a, b) <= 0 && Precedence(b, c) < 0 ==> Precedence(a, c) < 0
  {
    hide Compare, CodeView, WellFormed;
    ParsedWellFormed(a);
    ParsedWellFormed(b);
    ParsedWellFormed(c);
    VersionsOrdered(CodeView(Parse(a).value), CodeView(Parse(b).value), CodeView(Parse(c).value));
    VersionsOrdered(CodeView(Parse(a).value), CodeView(Parse(a).value), CodeView(Parse(a).value));
  }

  method ComparePrereleaseIdentifier(left: string, right: string) returns (r: int)
    ensures r == CompareKeys(CodeKey(left), CodeKey(right))
  {
    hide Value, Digits, CompareText;
    var leftNumber, rightNumber := ToLongLong(left), ToLongLong(right);
    if leftNumber.Some? && rightNumber.Some? {
      if leftNumber.value < rightNumber.value {
        return -1;
      }
      if leftNumber.value > rightNumber.value {
        return 1;
      }
      return 0;
    }
    if leftNumber.Some? != rightNumber.Some? {
      return if leftNumber.Some? then -1 else 1;
    }
    return CompareText(left, right);
  }

  // The loop over identifiers, then the longer list.
  method ComparePrerelease(a: seq<string>, b: seq<string>, ghost xs: seq<Key>, ghost ys: seq<Key>) returns (r: int)
    requires |xs| == |a| && (forall i :: 0 <= i < |a| ==> xs[i] == CodeKey(a[i]))
    requires |ys| == |b| && (forall i :: 0 <= i < |b| ==> ys[i] == CodeKey(b[i]))
    ensures r == CompareLists(xs, ys)
  {
    hide CodeKey, CompareKeys;
    var count := if |a| <= |b| then |a| else |b|;
    for i := 0 to count
      invariant CompareLists(xs, ys) == CompareLists(xs[i..], ys[i..])
    {
      var c := ComparePrereleaseIdentifier(a[i], b[i]);
      KeysOrdered(xs[i], ys[i], ys[i]);
      if c < 0 {
        return -1;
      }
      if c > 0 {
        return 1;
      }
    }
    if |a| < |b| {
      return -1;
    }
    if |a| > |b| {
      return 1;
    }
    return 0;
  }

  method CompareSemVer(left: string, right: string) returns (r: int)
    ensures Sign(r) == Precedence(left, right)
  {
    hide Scan, Trimmed, Value, Digits, CodeKey, CompareLists, Fields;
    var a, b := Parse(left), Parse(right);
    if a.None? || b.None? {
      return 0;
    }
    ParsedWellFormed(left);
    ParsedWellFormed(right);
    ghost var u, v := CodeView(a.value), CodeView(b.value);
    ListsOpposite(u.ids, v.ids);
    if ToInt(a.value.major) != ToInt(b.value.major) {
      return ToInt(a.value.major) - ToInt(b.value.major);
    }
    if ToInt(a.value.minor) != ToInt(b.value.minor) {
      return ToInt(a.value.minor) - ToInt(b.value.minor);
    }
    if ToInt(a.value.patch) != ToInt(b.value.patch) {
      return ToInt(a.value.patch) - ToInt(b.value.patch);
    }
    var xs, ys := Prerelease(a.value), Prerelease(b.value);
    if xs == [] && ys == [] {
      return 0;
    }
    if xs == [] {
      return 1;
    }
    if ys == [] {
      return -1;
    }
    r := ComparePrerelease(xs, ys, u.ids, v.ids);
  }
}
