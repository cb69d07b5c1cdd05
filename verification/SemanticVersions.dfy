/**
 The precedence of section 11 of Semantic Versioning 2.0.0, defined on structured
 versions without reference to the code, and its exact relation to `older`.
 */
module SemanticVersions {
  import opened Options
  import opened TextOrder
  import opened Versions

  // ---------- the standard: versions and their precedence ----------

  datatype Identifier = Numeric(n: nat) | Alphanumeric(text: string)

  datatype SemVer = SemVer(major: nat, minor: nat, patch: nat, pre: seq<Identifier>, build: Option<string>)

  predicate IdentifierChar(c: char) {
    IsDigit(c) || 'a' <= c <= 'z' || 'A' <= c <= 'Z' || c == '-'
  }

  ghost predicate WellFormedIdentifier(x: Identifier) {
    x.Alphanumeric? ==>
      x.text != "" && (forall i :: 0 <= i < |x.text| ==> IdentifierChar(x.text[i])) && !AllDigits(x.text)
  }

  ghost predicate WellFormed(v: SemVer) {
    forall i :: 0 <= i < |v.pre| ==> WellFormedIdentifier(v.pre[i])
  }

  /** x and y agree before position k, and position k puts x first. */
  ghost predicate DecidedAt<T>(x: seq<T>, y: seq<T>, less: (T, T) -> bool, k: nat) {
    k <= |x| && k < |y| && x[..k] == y[..k] && (k == |x| || less(x[k], y[k]))
  }

  ghost predicate LexPrecedes<T>(x: seq<T>, y: seq<T>, less: (T, T) -> bool) {
    exists k: nat :: DecidedAt(x, y, less, k)
  }

  ghost predicate IdentifierPrecedes(x: Identifier, y: Identifier) {
    match (x, y)
    case (Numeric(n), Numeric(m)) => n < m
    case (Numeric(_), Alphanumeric(_)) => true
    case (Alphanumeric(_), Numeric(_)) => false
    case (Alphanumeric(s), Alphanumeric(t)) => LexPrecedes(s, t, (a: char, b: char) => a < b)
  }

  ghost predicate PrePrecedes(p: seq<Identifier>, q: seq<Identifier>) {
    LexPrecedes(p, q, (x: Identifier, y: Identifier) => IdentifierPrecedes(x, y))
  }

  ghost predicate Precedes(v: SemVer, w: SemVer) {
    if v.major != w.major then v.major < w.major
    else if v.minor != w.minor then v.minor < w.minor
    else if v.patch != w.patch then v.patch < w.patch
    else if v.pre == [] then false
    else if w.pre == [] then true
    else PrePrecedes(v.pre, w.pre)
  }

  // ---------- the texts of versions ----------

  function Decimal(n: nat): (s: string)
    ensures s != "" && AllDigits(s) && Magnitude(s) == n
  {
    var last := ['0' + (n % 10) as char];
    if n < 10 then last
    else
      var s := Decimal(n / 10) + last;
      assert s[..|s| - 1] == Decimal(n / 10);
      s
  }

  function IdentifierText(x: Identifier): string {
    match x
    case Numeric(n) => Decimal(n)
    case Alphanumeric(s) => s
  }

  function Texts(pre: seq<Identifier>): seq<string> {
    seq(|pre|, i requires 0 <= i < |pre| => IdentifierText(pre[i]))
  }

  function Join(parts: seq<string>): string
    requires parts != []
  {
    if |parts| == 1 then parts[0] else parts[0] + "." + Join(parts[1..])
  }

  function CoreTexts(v: SemVer): seq<string> { [Decimal(v.major), Decimal(v.minor), Decimal(v.patch)] }

  function ReleaseText(v: SemVer): string {
    Join(CoreTexts(v)) + if v.pre == [] then "" else "-" + Join(Texts(v.pre))
  }

  function Render(v: SemVer): string {
    ReleaseText(v) + if v.build.None? then "" else "+" + v.build.value
  }

  // ---------- reading a rendered version ----------

  lemma {:induction false} BeforeOf(a: string, c: char, rest: string)
    requires c !in a
    ensures Before(a, c) == a
    ensures Before(a + [c] + rest, c) == a && After(a + [c] + rest, c) == rest
  {
    var s := a + [c] + rest;
    if a == "" {
      assert s == [c] + rest;
    } else {
      assert s[1..] == a[1..] + [c] + rest;
      BeforeOf(a[1..], c, rest);
    }
    assert s[|a| + 1..] == rest;
  }

  lemma CutAt(a: string, c: char, rest: string)
    requires c !in a
    ensures a + "" == a && Before(a, c) == a
    ensures var s := a + ([c] + rest); c in s && Before(s, c) == a && After(s, c) == rest
  {
    BeforeOf(a, c, rest);
    assert a + [c] + rest == a + ([c] + rest);
    assert (a + [c] + rest)[|a|] == c;
  }

  lemma {:induction false} SplitJoin(parts: seq<string>)
    requires parts != [] && forall i :: 0 <= i < |parts| ==> '.' !in parts[i]
    ensures Split(Join(parts), '.') == parts
  {
    if |parts| == 1 {
      BeforeOf(parts[0], '.', "");
    } else {
      var s := Join(parts);
      assert s == parts[0] + ['.'] + Join(parts[1..]);
      BeforeOf(parts[0], '.', Join(parts[1..]));
      assert s[|parts[0]| + 1..] == Join(parts[1..]);
      SplitJoin(parts[1..]);
    }
  }

  lemma {:induction false} JoinLacks(parts: seq<string>, c: char)
    requires parts != [] && c != '.' && forall i :: 0 <= i < |parts| ==> c !in parts[i]
    ensures c !in Join(parts)
  {
    if |parts| > 1 {
      JoinLacks(parts[1..], c);
    }
  }

  lemma TextsArePlain(v: SemVer)
    requires WellFormed(v)
    ensures forall i :: 0 <= i < |v.pre| ==> '.' !in Texts(v.pre)[i] && '+' !in Texts(v.pre)[i]
  {
  }

  lemma ReleaseLacksPlus(v: SemVer)
    requires WellFormed(v)
    ensures '+' !in ReleaseText(v)
  {
    JoinLacks(CoreTexts(v), '+');
    if v.pre != [] {
      TextsArePlain(v);
      JoinLacks(Texts(v.pre), '+');
    }
  }

  lemma RenderedRelease(v: SemVer)
    requires WellFormed(v)
    ensures Before(Render(v), '+') == ReleaseText(v)
  {
    ReleaseLacksPlus(v);
    CutAt(ReleaseText(v), '+', if v.build.None? then "" else v.build.value);
  }

  lemma CoreParts(v: SemVer)
    ensures var core := Join(CoreTexts(v)); '-' !in core && Split(core, '.') == CoreTexts(v)
  {
    JoinLacks(CoreTexts(v), '-');
    SplitJoin(CoreTexts(v));
  }

  predicate Fits(n: nat) { n < INT64_LIMIT }

  /** What the code reads from a rendered version; a core number that does not fit stops it there. */
  function Read(v: SemVer): Version {
    if !Fits(v.major) then Version(NO_CORE, [])
    else if !Fits(v.minor) then Version([v.major, 0, 0], [])
    else if !Fits(v.patch) then Version([v.major, v.minor, 0], [])
    else Version([v.major, v.minor, v.patch], Texts(v.pre))
  }

  lemma ReadCore(v: SemVer)
    ensures var (core, ok) := ParseCore(CoreTexts(v), 0, NO_CORE);
            core == Read(v).core && (ok <==> Fits(v.major) && Fits(v.minor) && Fits(v.patch))
  {
  }

  /** parseVersion on a text whose pieces are known. */
  lemma ParsePieces(text: string, release: string, parts: seq<string>)
    requires Before(text, '+') == release && Split(Before(release, '-'), '.') == parts && |parts| == 3
    ensures var (core, ok) := ParseCore(parts, 0, NO_CORE);
            ParseVersion(text) ==
            (Version(core, if ok && '-' in release then Split(After(release, '-'), '.') else []), ok)
  {
  }

  lemma ReadRendered(v: SemVer)
    requires WellFormed(v)
    ensures ParseVersion(Render(v)).0 == Read(v)
  {
    RenderedRelease(v);
    CoreParts(v);
    ReadCore(v);
    var core := Join(CoreTexts(v));
    if v.pre == [] {
      CutAt(core, '-', "");
      ParsePieces(Render(v), core, CoreTexts(v));
    } else {
      var tail := Join(Texts(v.pre));
      CutAt(core, '-', tail);
      TextsArePlain(v);
      SplitJoin(Texts(v.pre));
      ParsePieces(Render(v), core + ("-" + tail), CoreTexts(v));
    }
  }

  lemma OlderReads(v: SemVer, w: SemVer)
    requires WellFormed(v) && WellFormed(w)
    ensures IsOlder(Render(v), Render(w)) == VersionLess(Read(v), Read(w))
  {
    ReadRendered(v);
    ReadRendered(w);
  }

  // ---------- comparing identifiers ----------

  lemma LexUnfold<T>(x: seq<T>, y: seq<T>, less: (T, T) -> bool)
    requires x != [] && y != [] && !less(x[0], x[0])
    ensures x[0] == y[0] ==> (LexPrecedes(x, y, less) <==> LexPrecedes(x[1..], y[1..], less))
    ensures x[0] != y[0] ==> (LexPrecedes(x, y, less) <==> less(x[0], y[0]))
  {
    if LexPrecedes(x, y, less) {
      var k: nat :| DecidedAt(x, y, less, k);
      if k > 0 {
        assert x[..k][0] == x[0] && y[..k][0] == y[0];
        assert x[1..][..k - 1] == x[..k][1..] && y[1..][..k - 1] == y[..k][1..];
        assert DecidedAt(x[1..], y[1..], less, k - 1);
      }
    }
    if x[0] == y[0] && LexPrecedes(x[1..], y[1..], less) {
      var k: nat :| DecidedAt(x[1..], y[1..], less, k);
      assert x[..k + 1] == [x[0]] + x[1..][..k] && y[..k + 1] == [y[0]] + y[1..][..k];
      assert DecidedAt(x, y, less, k + 1);
    }
    if x[0] != y[0] && less(x[0], y[0]) {
      assert DecidedAt(x, y, less, 0);
    }
  }

  lemma LexEmpty<T>(x: seq<T>, y: seq<T>, less: (T, T) -> bool)
    requires x == [] || y == []
    ensures LexPrecedes(x, y, less) <==> |x| < |y|
  {
    if |x| < |y| {
      assert DecidedAt(x, y, less, 0);
    }
  }

  lemma {:induction false} TextLessIsLexical(x: string, y: string)
    ensures TextLess(x, y) <==> LexPrecedes(x, y, (a: char, b: char) => a < b)
  {
    var less := (a: char, b: char) => a < b;
    if x == "" || y == "" {
      LexEmpty(x, y, less);
    } else {
      LexUnfold(x, y, less);
      TextLessIsLexical(x[1..], y[1..]);
    }
  }

  /** Hyphen and digits that fit int64: alphanumeric to the standard, a negative number to the code. */
  predicate ReadsAsNegative(text: string) {
    1 < |text| && text[0] == '-' && AllDigits(text[1..]) && Magnitude(text[1..]) <= INT64_LIMIT
  }

  predicate PlainIdentifier(x: Identifier) {
    match x
    case Numeric(n) => Fits(n)
    case Alphanumeric(text) => !ReadsAsNegative(text)
  }

  predicate Plain(v: SemVer) {
    && Fits(v.major) && Fits(v.minor) && Fits(v.patch)
    && forall i :: 0 <= i < |v.pre| ==> PlainIdentifier(v.pre[i])
  }

  lemma ParseIdentifier(x: Identifier)
    requires WellFormedIdentifier(x)
    ensures PlainIdentifier(x) ==> ParseInt(IdentifierText(x)) == if x.Numeric? then Some(x.n) else None
    ensures !PlainIdentifier(x) ==>
      if x.Numeric? then ParseInt(IdentifierText(x)).None?
      else ParseInt(x.text).Some? && ParseInt(x.text).value <= 0
  {
  }

  lemma TextsDiffer(x: Identifier, y: Identifier)
    requires WellFormedIdentifier(x) && WellFormedIdentifier(y)
    ensures IdentifierText(x) == IdentifierText(y) <==> x == y
  {
  }

  lemma IdentifiersAgree(x: Identifier, y: Identifier)
    requires WellFormedIdentifier(x) && WellFormedIdentifier(y)
    requires PlainIdentifier(x) && PlainIdentifier(y)
    ensures IdentifierLess(IdentifierText(x), IdentifierText(y)) <==> IdentifierPrecedes(x, y)
  {
    ParseIdentifier(x);
    ParseIdentifier(y);
    if x.Alphanumeric? && y.Alphanumeric? {
      TextLessIsLexical(x.text, y.text);
    }
  }

  lemma IdentifierIrreflexive(x: Identifier)
    ensures !IdentifierPrecedes(x, x)
  {
  }

  lemma PreUnfold(p: seq<Identifier>, q: seq<Identifier>)
    ensures PrePrecedes(p, q) <==>
            if p == [] || q == [] then |p| < |q|
            else if p[0] == q[0] then PrePrecedes(p[1..], q[1..])
            else IdentifierPrecedes(p[0], q[0])
  {
    var less := (x: Identifier, y: Identifier) => IdentifierPrecedes(x, y);
    if p == [] || q == [] {
      LexEmpty(p, q, less);
    } else {
      IdentifierIrreflexive(p[0]);
      LexUnfold(p, q, less);
    }
  }

  lemma {:induction false} PrereleasesAgree(p: seq<Identifier>, q: seq<Identifier>)
    requires forall i :: 0 <= i < |p| ==> WellFormedIdentifier(p[i]) && PlainIdentifier(p[i])
    requires forall i :: 0 <= i < |q| ==> WellFormedIdentifier(q[i]) && PlainIdentifier(q[i])
    ensures PreLess(Texts(p), Texts(q)) <==> PrePrecedes(p, q)
  {
    PreUnfold(p, q);
    if p != [] && q != [] {
      TextsDiffer(p[0], q[0]);
      IdentifiersAgree(p[0], q[0]);
      assert Texts(p)[1..] == Texts(p[1..]) && Texts(q)[1..] == Texts(q[1..]);
      PrereleasesAgree(p[1..], q[1..]);
    }
  }

  // ---------- older is the standard's precedence exactly on plain versions ----------

  lemma CompareThree(x: seq<int>, y: seq<int>)
    requires |x| == |y| == 3
    ensures x == y <==> x[0] == y[0] && x[1] == y[1] && x[2] == y[2]
    ensures CoreLess(x, y) <==>
            x[0] < y[0] || (x[0] == y[0] && (x[1] < y[1] || (x[1] == y[1] && x[2] < y[2])))
  {
    assert x == [x[0]] + x[1..] && y == [y[0]] + y[1..];
    assert x[1..] == [x[1], x[2]] && y[1..] == [y[1], y[2]];
    assert x[1..][1..] == [x[2]] && y[1..][1..] == [y[2]];
    assert CoreLess([x[2]], [y[2]]) <==> x[2] < y[2];
  }

  lemma VersionsAgree(v: SemVer, w: SemVer)
    requires WellFormed(v) && WellFormed(w) && Plain(v) && Plain(w)
    ensures VersionLess(Read(v), Read(w)) <==> Precedes(v, w)
  {
    PrereleasesAgree(v.pre, w.pre);
    CompareThree(Read(v).core, Read(w).core);
  }

  lemma OlderIsPrecedence(v: SemVer, w: SemVer)
    requires WellFormed(v) && WellFormed(w) && Plain(v) && Plain(w)
    ensures IsOlder(Render(v), Render(w)) <==> Precedes(v, w)
  {
    OlderReads(v, w);
    VersionsAgree(v, w);
  }

  lemma {:induction false} CommonPrefix(p: seq<Identifier>, q: seq<Identifier>, k: nat)
    requires k <= |p| && k <= |q| && p[..k] == q[..k]
    ensures PreLess(Texts(p), Texts(q)) == PreLess(Texts(p[k..]), Texts(q[k..]))
    ensures PrePrecedes(p, q) <==> PrePrecedes(p[k..], q[k..])
    decreases k
  {
    if k == 0 {
      assert p[0..] == p && q[0..] == q;
    } else {
      assert p[0] == p[..k][0] == q[..k][0] == q[0];
      PreUnfold(p, q);
      assert Texts(p)[1..] == Texts(p[1..]) && Texts(q)[1..] == Texts(q[1..]);
      assert p[1..][..k - 1] == p[..k][1..] && q[1..][..k - 1] == q[..k][1..];
      CommonPrefix(p[1..], q[1..], k - 1);
      assert p[1..][k - 1..] == p[k..] && q[1..][k - 1..] == q[k..];
    }
  }

  /** A plain identifier that the code orders the wrong way round against x. */
  function Rival(x: Identifier): Identifier {
    if x.Numeric? then Alphanumeric("-") else Numeric(1)
  }

  lemma RivalDisagrees(x: Identifier, rest: seq<Identifier>)
    requires WellFormedIdentifier(x) && !PlainIdentifier(x)
    ensures WellFormedIdentifier(Rival(x)) && PlainIdentifier(Rival(x))
    ensures PreLess(Texts([x] + rest), Texts([Rival(x)])) == x.Alphanumeric?
    ensures PrePrecedes([x] + rest, [Rival(x)]) == x.Numeric?
  {
    var u, p := Rival(x), [x] + rest;
    ParseIdentifier(x);
    assert !IsDigit("-"[0]);
    ParseIdentifier(u);
    TextsDiffer(x, u);
    PreUnfold(p, [u]);
    assert Texts(p)[0] == IdentifierText(x) && Texts([u])[0] == IdentifierText(u);
    if x.Numeric? {
      assert IsDigit(IdentifierText(x)[0]) && '-' < IdentifierText(x)[0];
    }
  }

  /** The first identifier that is not plain. */
  lemma FirstOdd(v: SemVer) returns (k: nat)
    requires exists i :: 0 <= i < |v.pre| && !PlainIdentifier(v.pre[i])
    ensures k < |v.pre| && !PlainIdentifier(v.pre[k])
    ensures forall i :: 0 <= i < k ==> PlainIdentifier(v.pre[i])
  {
    k := 0;
    while PlainIdentifier(v.pre[k])
      invariant k < |v.pre|
      invariant forall i :: 0 <= i < k ==> PlainIdentifier(v.pre[i])
      decreases |v.pre| - k
    {
      assert exists i :: k < i < |v.pre| && !PlainIdentifier(v.pre[i]);
      k := k + 1;
    }
  }

  lemma SameCore(v: SemVer, w: SemVer)
    requires v.major == w.major && v.minor == w.minor && v.patch == w.patch
    requires Fits(v.major) && Fits(v.minor) && Fits(v.patch) && v.pre != [] && w.pre != []
    ensures VersionLess(Read(v), Read(w)) == PreLess(Texts(v.pre), Texts(w.pre))
    ensures Precedes(v, w) <==> PrePrecedes(v.pre, w.pre)
  {
  }

  lemma PrefixAndRival(p: seq<Identifier>, k: nat)
    requires k < |p| && WellFormedIdentifier(p[k]) && !PlainIdentifier(p[k])
    ensures var q := p[..k] + [Rival(p[k])]; PreLess(Texts(p), Texts(q)) != PrePrecedes(p, q)
  {
    hide PreLess, PrePrecedes, Texts, Rival, PlainIdentifier, WellFormedIdentifier;
    var q := p[..k] + [Rival(p[k])];
    RivalDisagrees(p[k], p[k + 1..]);
    assert p[k..] == [p[k]] + p[k + 1..] && q[k..] == [Rival(p[k])] && p[..k] == q[..k];
    CommonPrefix(p, q, k);
  }

  lemma OddPrereleaseDisagrees(v: SemVer) returns (w: SemVer)
    requires WellFormed(v) && Fits(v.major) && Fits(v.minor) && Fits(v.patch) && !Plain(v)
    ensures WellFormed(w) && Plain(w) && VersionLess(Read(v), Read(w)) != Precedes(v, w)
  {
    var k := FirstOdd(v);
    assert WellFormedIdentifier(v.pre[k]);
    w := SemVer(v.major, v.minor, v.patch, v.pre[..k] + [Rival(v.pre[k])], None);
    RivalDisagrees(v.pre[k], []);
    PrefixAndRival(v.pre, k);
    SameCore(v, w);
  }

  lemma WideCoreDisagrees(v: SemVer) returns (w: SemVer)
    requires WellFormed(v) && !(Fits(v.major) && Fits(v.minor) && Fits(v.patch))
    ensures WellFormed(w) && Plain(w) && VersionLess(Read(v), Read(w)) != Precedes(v, w)
  {
    if !Fits(v.major) {
      w := SemVer(1, 0, 0, [], None);
    } else if !Fits(v.minor) {
      w := SemVer(v.major, 1, 0, [], None);
    } else {
      w := SemVer(v.major, v.minor, 1, [], None);
    }
    CompareThree(Read(v).core, Read(w).core);
  }

  /**
   A version compares with every plain version as section 11 says if and only if it is
   plain itself: its numbers fit int64 and no identifier is a hyphen before digits.
   */
  lemma OlderIsPrecedenceExactlyOnPlain(v: SemVer)
    requires WellFormed(v)
    ensures (forall w | WellFormed(w) && Plain(w) :: IsOlder(Render(v), Render(w)) <==> Precedes(v, w)) <==> Plain(v)
  {
    if Plain(v) {
      forall w | WellFormed(w) && Plain(w)
        ensures IsOlder(Render(v), Render(w)) <==> Precedes(v, w)
      {
        OlderIsPrecedence(v, w);
      }
    } else if Fits(v.major) && Fits(v.minor) && Fits(v.patch) {
      var w := OddPrereleaseDisagrees(v);
      OlderReads(v, w);
    } else {
      var w := WideCoreDisagrees(v);
      OlderReads(v, w);
    }
  }

  lemma MinusOne()
    ensures WellFormedIdentifier(Alphanumeric("-1")) && !PlainIdentifier(Alphanumeric("-1"))
  {
    assert !IsDigit("-1"[0]);
    assert "-1"[1..] == "1" && "1"[..0] == "";
    assert Magnitude("1") == 1;
  }

  /** A failing case: the identifier of 1.0.0--1 is read as the number -1, below the identifier 1. */
  lemma HyphenDigitsMisread()
    ensures var v := SemVer(1, 0, 0, [Alphanumeric("-1")], None);
            var w := SemVer(1, 0, 0, [Numeric(1)], None);
            WellFormed(v) && Plain(w) && IsOlder(Render(v), Render(w)) && !Precedes(v, w)
  {
    var x := Alphanumeric("-1");
    var v, w := SemVer(1, 0, 0, [x], None), SemVer(1, 0, 0, [Numeric(1)], None);
    MinusOne();
    OlderReads(v, w);
    SameCore(v, w);
    RivalDisagrees(x, []);
    assert [x] + [] == v.pre;
  }
}
