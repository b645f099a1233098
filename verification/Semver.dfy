/** Semantic version precedence of src/dispatcher/cluster_preflight.py.

    `Compare` follows the code; `Precedes` states section 11 of Semantic Versioning 2.0.0 on its own.
 */
module Semver {
  import opened Common
  import opened Text

  /** Build metadata is checked by the parser and then dropped: it takes no part in precedence. */
  datatype Version = Version(major: nat, minor: nat, patch: nat, prerelease: Option<seq<string>>)

  predicate IsDigit(c: char) { '0' <= c <= '9' }

  predicate IsLetter(c: char) { 'a' <= c <= 'z' || 'A' <= c <= 'Z' || c == '-' }

  /** `str.isdecimal` on the characters an identifier can have. */
  predicate IsNumeric(s: string) {
    s != "" && forall c | c in s :: IsDigit(c)
  }

  /** The identifier pattern of the parser: numerals have no leading zero. */
  predicate IsIdentifier(s: string) {
    && s != "" && (forall c | c in s :: IsDigit(c) || IsLetter(c))
    && (IsNumeric(s) ==> s == "0" || s[0] != '0')
  }

  predicate IsParsed(v: Version) {
    v.prerelease.Some? ==> v.prerelease.value != [] && forall p | p in v.prerelease.value :: IsIdentifier(p)
  }

  /** `int(part)`. */
  function Value(s: string): nat
    requires forall c | c in s :: IsDigit(c)
  {
    if s == "" then 0
    else
      assert s[|s| - 1] in s;
      10 * Value(s[..|s| - 1]) + DigitValue(s[|s| - 1])
  }

  function DigitValue(c: char): (d: nat)
    requires IsDigit(c)
    ensures d < 10
  {
    c as int - '0' as int
  }

  /** `left > right` on strings. */
  predicate Above(a: string, b: string)
    decreases |a|
  {
    a != "" && (b == "" || a[0] > b[0] || (a[0] == b[0] && Above(a[1..], b[1..])))
  }

  // ---------------------------------------------------------------------------------------------
  // The code

  /** One pair of different parts. */
  function ComparePart(l: string, r: string): int {
    if IsNumeric(l) && IsNumeric(r) then (if Value(l) > Value(r) then 1 else -1)
    else if IsNumeric(l) != IsNumeric(r) then (if IsNumeric(l) then -1 else 1)
    else if Above(l, r) then 1 else -1
  }

  /** The loop over the parts, and the lengths behind it. */
  function CompareParts(l: seq<string>, r: seq<string>): int
    decreases |l|
  {
    if l == [] || r == [] then (if |l| == |r| then 0 else if |l| > |r| then 1 else -1)
    else if l[0] == r[0] then CompareParts(l[1..], r[1..])
    else ComparePart(l[0], r[0])
  }

  predicate CoreAbove(l: Version, r: Version) {
    l.major > r.major || (l.major == r.major && (l.minor > r.minor || (l.minor == r.minor && l.patch > r.patch)))
  }

  predicate SameCore(l: Version, r: Version) {
    l.major == r.major && l.minor == r.minor && l.patch == r.patch
  }

  /** `_compare_semver`. */
  function Compare(l: Version, r: Version): int {
    if !SameCore(l, r) then (if CoreAbove(l, r) then 1 else -1)
    else if l.prerelease.None? then (if r.prerelease.None? then 0 else 1)
    else if r.prerelease.None? then -1
    else CompareParts(l.prerelease.value, r.prerelease.value)
  }

  // ---------------------------------------------------------------------------------------------
  // Section 11

  /** Numbers by value and before words; words by their characters, a proper prefix first. */
  predicate PartPrecedes(a: string, b: string) {
    if IsNumeric(a) && IsNumeric(b) then Value(a) < Value(b)
    else if IsNumeric(a) || IsNumeric(b) then IsNumeric(a)
    else WordPrecedes(a, b)
  }

  predicate WordPrecedes(a: string, b: string) {
    exists k :: 0 <= k <= |a| && k <= |b| && DiffersAt(a, b, k)
  }

  /** The words agree before `k`, and `a` ends there or has the smaller character. */
  predicate DiffersAt(a: string, b: string, k: nat)
    requires k <= |a| && k <= |b|
  {
    a[..k] == b[..k] && k < |b| && (k == |a| || a[k] < b[k])
  }

  /** The first difference decides; with none, the shorter list comes first. */
  predicate ListPrecedes(a: seq<string>, b: seq<string>) {
    exists k :: 0 <= k <= |a| && k <= |b| && ListDiffersAt(a, b, k)
  }

  predicate ListDiffersAt(a: seq<string>, b: seq<string>, k: nat)
    requires k <= |a| && k <= |b|
  {
    a[..k] == b[..k] && k < |b| && (k == |a| || PartPrecedes(a[k], b[k]))
  }

  /** Precedence as section 11 words it. */
  predicate Precedes(a: Version, b: Version) {
    || CoreAbove(b, a)
    || (SameCore(a, b) && a.prerelease.Some? &&
        (b.prerelease.None? || ListPrecedes(a.prerelease.value, b.prerelease.value)))
  }

  /** Equal precedence: the same core and the same prerelease. */
  predicate Equal(a: Version, b: Version) {
    SameCore(a, b) && a.prerelease == b.prerelease
  }

  // ---------------------------------------------------------------------------------------------
  // Parts

  lemma {:induction false} AboveMeaning(a: string, b: string)
    ensures Above(a, b) <==> WordPrecedes(b, a)
    ensures a != b ==> Above(a, b) || Above(b, a)
    ensures !(Above(a, b) && Above(b, a)) && !Above(a, a)
    decreases |a|
  {
    if a != "" && b != "" && a[0] == b[0] {
      AboveMeaning(a[1..], b[1..]);
      assert a == [a[0]] + a[1..] && b == [b[0]] + b[1..];
      WordStep(b, a);
    } else {
      WordHeads(b, a);
    }
    if a != "" {
      AboveMeaning(a[1..], a[1..]);
    }
  }

  lemma PrefixHead<T>(a: seq<T>, b: seq<T>, k: nat)
    requires 0 < k <= |a| && k <= |b| && a[..k] == b[..k]
    ensures a[0] == b[0]
  {
    assert a[..k][0] == b[..k][0];
  }

  lemma WordHeads(a: string, b: string)
    requires a == "" || b == "" || a[0] != b[0]
    ensures WordPrecedes(a, b) <==> b != "" && (a == "" || a[0] < b[0])
  {
    if b != "" && (a == "" || a[0] < b[0]) {
      assert DiffersAt(a, b, 0);
    }
    forall k | 0 <= k <= |a| && k <= |b| && DiffersAt(a, b, k)
      ensures k == 0
    {
      if k > 0 {
        PrefixHead(a, b, k);
      }
    }
  }

  lemma WordStep(a: string, b: string)
    requires a != "" && b != "" && a[0] == b[0]
    ensures WordPrecedes(a, b) <==> WordPrecedes(a[1..], b[1..])
  {
    if k :| 0 <= k <= |a| && k <= |b| && DiffersAt(a, b, k) {
      assert k > 0;
      assert a[1..][..k - 1] == a[..k][1..] && b[1..][..k - 1] == b[..k][1..];
      assert DiffersAt(a[1..], b[1..], k - 1);
    }
    if k :| 0 <= k <= |a[1..]| && k <= |b[1..]| && DiffersAt(a[1..], b[1..], k) {
      assert a[..k + 1] == [a[0]] + a[1..][..k] && b[..k + 1] == [b[0]] + b[1..][..k];
      assert DiffersAt(a, b, k + 1);
    }
  }

  lemma {:induction false} AboveTransitive(a: string, b: string, c: string)
    requires Above(a, b) && Above(b, c)
    ensures Above(a, c)
    decreases |a|
  {
    if b != "" && c != "" && a[0] == b[0] && b[0] == c[0] {
      AboveTransitive(a[1..], b[1..], c[1..]);
    }
  }

  lemma {:induction false} ValueIsPositive(s: string)
    requires IsNumeric(s) && s[0] != '0'
    ensures Value(s) >= 1
  {
    if |s| > 1 {
      assert s[..|s| - 1][0] == s[0];
      ValueIsPositive(s[..|s| - 1]);
    } else {
      assert s[..0] == "" && s[0] in s;
    }
  }

  lemma LastDigit(x: nat, c: nat, y: nat, d: nat)
    requires 10 * x + c == 10 * y + d && c < 10 && d < 10
    ensures x == y && c == d
  {
  }

  /** Without leading zeros the value determines the numeral. */
  lemma {:induction false} ValueIsInjective(a: string, b: string)
    requires IsNumeric(a) && IsNumeric(b) && IsIdentifier(a) && IsIdentifier(b)
    requires Value(a) == Value(b)
    ensures a == b
    decreases |a|
  {
    var x, y := a[..|a| - 1], b[..|b| - 1];
    assert a == x + [a[|a| - 1]] && b == y + [b[|b| - 1]];
    LastDigit(Value(x), DigitValue(a[|a| - 1]), Value(y), DigitValue(b[|b| - 1]));
    if x != "" {
      ValueIsPositive(x);
    }
    if y != "" {
      ValueIsPositive(y);
    }
    if x != "" && y != "" {
      ValueIsInjective(x, y);
    }
  }

  /** Two different identifiers: the code picks the one that section 11 puts first. */
  lemma PartsAgree(l: string, r: string)
    requires IsIdentifier(l) && IsIdentifier(r) && l != r
    ensures ComparePart(l, r) == if PartPrecedes(l, r) then -1 else 1
    ensures PartPrecedes(l, r) <==> !PartPrecedes(r, l)
  {
    hide WordPrecedes;
    if IsNumeric(l) && IsNumeric(r) && Value(l) == Value(r) {
      ValueIsInjective(l, r);
    }
    AboveMeaning(l, r);
    AboveMeaning(r, l);
  }

  lemma PartsTransitive(a: string, b: string, c: string)
    requires IsIdentifier(a) && IsIdentifier(b) && IsIdentifier(c)
    requires PartPrecedes(a, b) && PartPrecedes(b, c)
    ensures PartPrecedes(a, c) && a != c
  {
    hide WordPrecedes;
    AboveMeaning(b, a);
    AboveMeaning(c, b);
    AboveMeaning(c, a);
    if Above(c, b) && Above(b, a) {
      AboveTransitive(c, b, a);
    }
  }

  // ---------------------------------------------------------------------------------------------
  // Lists

  predicate Identifiers(s: seq<string>) {
    forall p | p in s :: IsIdentifier(p)
  }

  lemma ListStep(a: seq<string>, b: seq<string>)
    requires a != [] && b != [] && a[0] == b[0] && !PartPrecedes(a[0], b[0])
    ensures ListPrecedes(a, b) <==> ListPrecedes(a[1..], b[1..])
  {
    hide PartPrecedes;
    if k :| 0 <= k <= |a| && k <= |b| && ListDiffersAt(a, b, k) {
      assert k > 0;
      assert a[1..][..k - 1] == a[..k][1..] && b[1..][..k - 1] == b[..k][1..];
      assert ListDiffersAt(a[1..], b[1..], k - 1);
    }
    if k :| 0 <= k <= |a[1..]| && k <= |b[1..]| && ListDiffersAt(a[1..], b[1..], k) {
      assert a[..k + 1] == [a[0]] + a[1..][..k] && b[..k + 1] == [b[0]] + b[1..][..k];
      assert ListDiffersAt(a, b, k + 1);
    }
  }

  lemma ListHeads(a: seq<string>, b: seq<string>)
    requires a == [] || b == [] || a[0] != b[0]
    ensures ListPrecedes(a, b) <==> b != [] && (a == [] || PartPrecedes(a[0], b[0]))
  {
    hide PartPrecedes;
    if b != [] && (a == [] || PartPrecedes(a[0], b[0])) {
      assert ListDiffersAt(a, b, 0);
    }
    forall k | 0 <= k <= |a| && k <= |b| && ListDiffersAt(a, b, k)
      ensures k == 0
    {
      if k > 0 {
        PrefixHead(a, b, k);
      }
    }
  }

  lemma NotBeforeItself(p: string)
    requires IsIdentifier(p)
    ensures !PartPrecedes(p, p)
  {
    AboveMeaning(p, p);
  }

  lemma {:induction false} ListsAgree(l: seq<string>, r: seq<string>)
    requires Identifiers(l) && Identifiers(r)
    ensures CompareParts(l, r) == if l == r then 0 else if ListPrecedes(l, r) then -1 else 1
    ensures l != r ==> (ListPrecedes(l, r) <==> !ListPrecedes(r, l))
    decreases |l|
  {
    hide PartPrecedes, ListPrecedes, ComparePart, IsIdentifier;
    if l != [] && r != [] && l[0] == r[0] {
      assert l == [l[0]] + l[1..] && r == [r[0]] + r[1..];
      ListsAgree(l[1..], r[1..]);
      NotBeforeItself(l[0]);
      ListStep(l, r);
      ListStep(r, l);
    } else {
      ListHeads(l, r);
      ListHeads(r, l);
      if l != [] && r != [] {
        PartsAgree(l[0], r[0]);
      }
    }
  }

  lemma {:induction false} ListsTransitive(a: seq<string>, b: seq<string>, c: seq<string>)
    requires Identifiers(a) && Identifiers(b) && Identifiers(c)
    requires ListPrecedes(a, b) && ListPrecedes(b, c)
    ensures ListPrecedes(a, c)
    decreases |a|
  {
    hide PartPrecedes, ListPrecedes, IsIdentifier;
    if a != [] && b != [] && a[0] == b[0] {
      NotBeforeItself(a[0]);
      ListStep(a, b);
    } else {
      ListHeads(a, b);
    }
    if b != [] && c != [] && b[0] == c[0] {
      NotBeforeItself(b[0]);
      ListStep(b, c);
    } else {
      ListHeads(b, c);
    }
    if a != [] && b != [] && c != [] {
      if a[0] == b[0] && b[0] == c[0] {
        ListsTransitive(a[1..], b[1..], c[1..]);
        ListStep(a, c);
      } else {
        if a[0] != b[0] && b[0] != c[0] {
          PartsTransitive(a[0], b[0], c[0]);
        }
        ListHeads(a, c);
      }
    } else {
      ListHeads(a, c);
    }
  }

  // ---------------------------------------------------------------------------------------------
  // Versions

  /** The comparison agrees with section 11 on everything the parser accepts. */
  lemma CompareAgrees(l: Version, r: Version)
    requires IsParsed(l) && IsParsed(r)
    ensures Compare(l, r) == if Equal(l, r) then 0 else if Precedes(l, r) then -1 else 1
  {
    hide CompareParts, ListPrecedes;
    if l.prerelease.Some? && r.prerelease.Some? {
      ListsAgree(l.prerelease.value, r.prerelease.value);
    }
  }

  /** A total order up to build metadata. */
  lemma CompareIsAntisymmetric(l: Version, r: Version)
    requires IsParsed(l) && IsParsed(r)
    ensures Compare(l, r) == -Compare(r, l)
    ensures Compare(l, r) == 0 <==> Equal(l, r)
  {
    hide CompareParts, ListPrecedes;
    CompareAgrees(l, r);
    CompareAgrees(r, l);
    if l.prerelease.Some? && r.prerelease.Some? {
      ListsAgree(l.prerelease.value, r.prerelease.value);
    }
  }

  lemma CompareIsTransitive(a: Version, b: Version, c: Version)
    requires IsParsed(a) && IsParsed(b) && IsParsed(c)
    requires Compare(a, b) <= 0 && Compare(b, c) <= 0
    ensures Compare(a, c) <= 0
    ensures Compare(a, c) == 0 ==> Compare(a, b) == 0 && Compare(b, c) == 0
  {
    hide CompareParts, ListPrecedes, Compare;
    CompareAgrees(a, b);
    CompareAgrees(b, c);
    CompareAgrees(a, c);
    CompareIsAntisymmetric(a, c);
    if a.prerelease.Some? && b.prerelease.Some? && c.prerelease.Some? {
      var x, y, z := a.prerelease.value, b.prerelease.value, c.prerelease.value;
      if ListPrecedes(x, y) && ListPrecedes(y, z) {
        ListsTransitive(x, y, z);
      }
      ListsAgree(x, y);
      ListsAgree(y, z);
    }
    CompareIsAntisymmetric(a, b);
    CompareIsAntisymmetric(b, c);
  }

  /** The ban on leading zeros is needed: without it the comparison is not even antisymmetric. */
  lemma LeadingZerosBreakTheOrder()
    ensures var a, b := Version(1, 0, 0, Some(["1"])), Version(1, 0, 0, Some(["01"]));
            IsParsed(a) && !IsParsed(b) && Compare(a, b) == -1 && Compare(b, a) == -1
  {
    assert "01"[..1] == "0" && "0"[..0] == "" && "1"[..0] == "";
    assert Value("") == 0;
    assert Value("0") == 0 && Value("1") == 1;
    assert Value("01") == 10 * Value("0") + 1;
    assert "01" in ["01"] && IsNumeric("01") && IsNumeric("1");
  }

  // ---------------------------------------------------------------------------------------------
  // Text

  /** A numeral without leading zeros. */
  predicate IsNumeral(s: string) {
    IsNumeric(s) && (s == "0" || s[0] != '0')
  }

  predicate IsBuildPart(s: string) {
    s != "" && forall c | c in s :: IsDigit(c) || IsLetter(c)
  }

  /** The text before the first `c`, and the text behind it if there is one. */
  function Cut(s: string, c: char): (r: (string, Option<string>))
    ensures c !in r.0
    ensures s == r.0 + if r.1.Some? then [c] + r.1.value else []
  {
    if s == "" then ("", None)
    else if s[0] == c then ("", Some(s[1..]))
    else
      var r := Cut(s[1..], c);
      ([s[0]] + r.0, r.1)
  }

  function ParseCore(core: string): Option<Version> {
    var parts := Split(core, '.');
    if |parts| == 3 && (forall p | p in parts :: IsNumeral(p)) then
      assert parts[0] in parts && parts[1] in parts && parts[2] in parts;
      Some(Version(Value(parts[0]), Value(parts[1]), Value(parts[2]), None))
    else None
  }

  function ParsePrerelease(core: Version, text: Option<string>): Option<Version> {
    if text.None? then Some(core)
    else
      var parts := Split(text.value, '.');
      if forall p | p in parts :: IsIdentifier(p) then Some(core.(prerelease := Some(parts))) else None
  }

  predicate ValidBuild(text: Option<string>) {
    text.Some? ==> forall p | p in Split(text.value, '.') :: IsBuildPart(p)
  }

  /** `_parse_semver`: at most 128 characters, an optional "v", three numerals, a prerelease and build metadata. */
  function Parse(text: string): Option<Version> {
    var plain := if text != "" && text[0] == 'v' then text[1..] else text;
    var build := Cut(plain, '+');
    var prerelease := Cut(build.0, '-');
    var core := ParseCore(prerelease.0);
    if |text| > 128 || core.None? || !ValidBuild(build.1) then None else ParsePrerelease(core.value, prerelease.1)
  }

  function Print(v: Version): string
    requires IsParsed(v)
  {
    Decimal(v.major) + "." + Decimal(v.minor) + "." + Decimal(v.patch) +
    if v.prerelease.Some? then "-" + Join(v.prerelease.value, '.') else ""
  }

  /** Whatever the parser accepts is in the form on which the comparison is an order. */
  lemma ParserGivesParsed(text: string)
    requires Parse(text).Some?
    ensures IsParsed(Parse(text).value)
  {
    hide Cut, IsIdentifier, IsNumeral, Value, Split;
  }

  lemma CutAbsent(s: string, c: char)
    requires c !in s
    ensures Cut(s, c) == (s, None)
  {
    if s != "" {
      CutAbsent(s[1..], c);
      assert s == [s[0]] + s[1..];
    }
  }

  lemma {:induction false} CutFirst(s: string, c: char, rest: string)
    requires c !in s
    ensures Cut(s + [c] + rest, c) == (s, Some(rest))
  {
    if s == "" {
      assert (s + [c] + rest)[1..] == rest;
    } else {
      assert (s + [c] + rest)[1..] == s[1..] + [c] + rest;
      CutFirst(s[1..], c, rest);
      assert s == [s[0]] + s[1..];
    }
  }

  /** A decimal print is a numeral and keeps its value. */
  lemma {:induction false} DecimalIsNumeral(n: nat)
    ensures IsNumeral(Decimal(n)) && Value(Decimal(n)) == n
    ensures n > 0 ==> Decimal(n)[0] != '0'
  {
    var s := Decimal(n);
    if n < 10 {
      assert s[..0] == "";
    } else {
      DecimalIsNumeral(n / 10);
      assert s[..|s| - 1] == Decimal(n / 10);
    }
  }

  lemma CoreBack(v: Version)
    ensures var core := Decimal(v.major) + "." + Decimal(v.minor) + "." + Decimal(v.patch);
            && ParseCore(core) == Some(v.(prerelease := None))
            && core[0] != 'v' && '-' !in core && '+' !in core
  {
    hide Decimal, Value, IsNumeral, Split;
    var a, b, c := Decimal(v.major), Decimal(v.minor), Decimal(v.patch);
    DecimalIsNumeral(v.major);
    DecimalIsNumeral(v.minor);
    DecimalIsNumeral(v.patch);
    SplitBehind(a, b + ['.'] + c, '.');
    SplitBehind(b, c, '.');
    SplitPlain(c, '.');
    assert a + "." + b + "." + c == a + ['.'] + (b + ['.'] + c);
    assert a[0] in a;
    assert Split(a + ['.'] + (b + ['.'] + c), '.') == [a, b, c];
  }

  lemma {:induction false} JoinedChars(parts: seq<string>)
    requires parts != [] && forall p | p in parts :: IsIdentifier(p)
    ensures '+' !in Join(parts, '.')
  {
    assert parts[0] in parts;
    if |parts| > 1 {
      JoinedChars(parts[1..]);
    }
  }

  /** Printing and parsing give the version back, so every version the comparison speaks about has a text. */
  lemma PrintParses(v: Version)
    requires IsParsed(v) && |Print(v)| <= 128
    ensures Parse(Print(v)) == Some(v)
  {
    hide Decimal, ParseCore, IsIdentifier, Split, Join, Cut;
    CoreBack(v);
    var core := Decimal(v.major) + "." + Decimal(v.minor) + "." + Decimal(v.patch);
    if v.prerelease.None? {
      assert Print(v) == core;
      CutAbsent(core, '+');
      CutAbsent(core, '-');
    } else {
      var parts := v.prerelease.value;
      JoinedChars(parts);
      var text := Join(parts, '.');
      assert Print(v) == core + ['-'] + text;
      CutAbsent(core + ['-'] + text, '+');
      CutFirst(core, '-', text);
      IdentifiersHaveNoDot(parts);
      SplitJoin(parts, '.');
    }
  }

  lemma IdentifiersHaveNoDot(parts: seq<string>)
    requires forall p | p in parts :: IsIdentifier(p)
    ensures forall p | p in parts :: '.' !in p
  {
  }
}
