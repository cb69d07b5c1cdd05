/**
 Version texts as cli/reference/leases.go reads them: `parseVersion` and `older`,
 with the parts of Go's strings and strconv packages they call.
 */
module Versions {
  import opened Options
  import opened TextOrder

  // ---------- strings.Cut, strings.Split, strconv.ParseInt ----------

  /** The text before the first `c`, all of it when there is none. */
  function Before(s: string, c: char): (r: string)
    ensures c !in r
    ensures |r| <= |s| && r == s[..|r|]
    ensures |r| < |s| ==> s[|r|] == c
    ensures c !in s ==> r == s
  {
    if s == "" || s[0] == c then "" else [s[0]] + Before(s[1..], c)
  }

  /** The text after the first `c`, empty when there is none. */
  function After(s: string, c: char): string {
    var b := Before(s, c);
    if |b| < |s| then s[|b| + 1..] else ""
  }

  function Split(s: string, c: char): (parts: seq<string>)
    ensures parts != []
    decreases |s|
  {
    var b := Before(s, c);
    if |b| < |s| then [b] + Split(s[|b| + 1..], c) else [s]
  }

  const INT64_LIMIT: nat := 0x8000_0000_0000_0000

  predicate IsDigit(c: char) { '0' <= c <= '9' }

  predicate AllDigits(s: string) { forall i :: 0 <= i < |s| ==> IsDigit(s[i]) }

  function DigitValue(c: char): nat
    requires IsDigit(c)
  {
    c as int - '0' as int
  }

  function Magnitude(s: string): nat
    requires AllDigits(s)
  {
    if s == "" then 0 else 10 * Magnitude(s[..|s| - 1]) + DigitValue(s[|s| - 1])
  }

  /** Base 10 and 64 bits: an optional sign, at least one digit, and a value that fits int64. */
  function ParseInt(s: string): (r: Option<int>) {
    var signed := s != "" && (s[0] == '-' || s[0] == '+');
    var digits := if signed then s[1..] else s;
    if digits == "" || !AllDigits(digits) then None
    else if signed && s[0] == '-' then
      if Magnitude(digits) <= INT64_LIMIT then Some(0 - Magnitude(digits)) else None
    else if Magnitude(digits) < INT64_LIMIT then Some(Magnitude(digits))
    else None
  }

  // ---------- parseVersion ----------

  datatype Version = Version(core: seq<int>, pre: seq<string>)

  const NO_CORE: seq<int> := [0, 0, 0]

  /** Fills the core from part k on; a part that is no number leaves it and the later ones 0. */
  function ParseCore(parts: seq<string>, k: nat, core: seq<int>): (r: (seq<int>, bool))
    requires k <= |parts| == 3 && |core| == 3
    ensures |r.0| == 3
    decreases 3 - k
  {
    if k == 3 then (core, true)
    else
      match ParseInt(parts[k])
      case None => (core, false)
      case Some(n) => if n < 0 then (core, false) else ParseCore(parts, k + 1, core[k := n])
  }

  function ParseVersion(text: string): (r: (Version, bool))
    ensures |r.0.core| == 3
  {
    var release := Before(text, '+');
    var parts := Split(Before(release, '-'), '.');
    if |parts| != 3 then (Version(NO_CORE, []), false)
    else
      var (core, ok) := ParseCore(parts, 0, NO_CORE);
      if !ok then (Version(core, []), false)
      else if '-' in release then (Version(core, Split(After(release, '-'), '.')), true)
      else (Version(core, []), true)
  }

  // ---------- older ----------

  /** The switch on two different prerelease identifiers. */
  predicate IdentifierLess(x: string, y: string) {
    match (ParseInt(x), ParseInt(y))
    case (Some(n), Some(m)) => n < m
    case (Some(_), None) => true
    case (None, Some(_)) => false
    case (None, None) => TextLess(x, y)
  }

  predicate PreLess(x: seq<string>, y: seq<string>) {
    if x == [] || y == [] then |x| < |y|
    else if x[0] == y[0] then PreLess(x[1..], y[1..])
    else IdentifierLess(x[0], y[0])
  }

  predicate CoreLess(x: seq<int>, y: seq<int>)
    requires |x| == |y|
  {
    x != [] && if x[0] == y[0] then CoreLess(x[1..], y[1..]) else x[0] < y[0]
  }

  predicate VersionLess(x: Version, y: Version)
    requires |x.core| == |y.core|
  {
    if x.core != y.core then CoreLess(x.core, y.core)
    else if x.pre == [] then false
    else if y.pre == [] then true
    else PreLess(x.pre, y.pre)
  }

  predicate IsOlder(a: string, b: string) {
    VersionLess(ParseVersion(a).0, ParseVersion(b).0)
  }

  /** parseVersion's own loop over the three parts. */
  method ReadVersion(text: string) returns (parsed: Version, ok: bool)
    ensures (parsed, ok) == ParseVersion(text)
  {
    var release := Before(text, '+');
    var parts := Split(Before(release, '-'), '.');
    var core := NO_CORE;
    if |parts| != 3 {
      return Version(core, []), false;
    }
    var index := 0;
    while index < 3
      invariant 0 <= index <= 3 && |core| == 3
      invariant ParseCore(parts, index, core) == ParseCore(parts, 0, NO_CORE)
    {
      var number := ParseInt(parts[index]);
      if number.None? || number.value < 0 {
        return Version(core, []), false;
      }
      core := core[index := number.value];
      index := index + 1;
    }
    var pre := if '-' in release then Split(After(release, '-'), '.') else [];
    return Version(core, pre), true;
  }

  lemma CoreLessFrom(x: seq<int>, y: seq<int>, k: nat)
    requires k <= |x| == |y| && x[..k] == y[..k]
    ensures CoreLess(x, y) == CoreLess(x[k..], y[k..])
    decreases k
  {
    if k > 0 {
      assert x[0] == x[..k][0] == y[..k][0] == y[0];
      assert x[1..][..k - 1] == x[..k][1..] == y[..k][1..] == y[1..][..k - 1];
      CoreLessFrom(x[1..], y[1..], k - 1);
      assert x[1..][k - 1..] == x[k..] && y[1..][k - 1..] == y[k..];
    } else {
      assert x[0..] == x && y[0..] == y;
    }
  }

  /** older's loop over the prerelease identifiers: the first difference decides. */
  method PreOlder(left: seq<string>, right: seq<string>) returns (older: bool)
    ensures older == PreLess(left, right)
  {
    var index := 0;
    while index < |left| && index < |right|
      invariant 0 <= index <= |left| && index <= |right|
      invariant PreLess(left, right) == PreLess(left[index..], right[index..])
    {
      var x, y := left[index], right[index];
      assert left[index..][1..] == left[index + 1..] && right[index..][1..] == right[index + 1..];
      if x != y {
        var xNumber, yNumber := ParseInt(x), ParseInt(y);
        if xNumber.Some? && yNumber.Some? {
          return xNumber.value < yNumber.value;
        } else if xNumber.Some? {
          return true;
        } else if yNumber.Some? {
          return false;
        }
        return TextLess(x, y);
      }
      index := index + 1;
    }
    return |left| < |right|;
  }

  method VersionOlder(left: Version, right: Version) returns (older: bool)
    requires |left.core| == |right.core| == 3
    ensures older == VersionLess(left, right)
  {
    var index := 0;
    while index < 3
      invariant 0 <= index <= 3
      invariant left.core[..index] == right.core[..index]
    {
      CoreLessFrom(left.core, right.core, index);
      if left.core[index] != right.core[index] {
        return left.core[index] < right.core[index];
      }
      index := index + 1;
    }
    assert left.core[..3] == left.core && right.core[..3] == right.core;
    if |left.pre| == 0 {
      return false;
    }
    if |right.pre| == 0 {
      return true;
    }
    older := PreOlder(left.pre, right.pre);
  }

  method Older(a: string, b: string) returns (older: bool)
    ensures older == IsOlder(a, b)
  {
    var left, _ := ReadVersion(a);
    var right, _ := ReadVersion(b);
    older := VersionOlder(left, right);
  }

  // ---------- older is a strict partial order on all texts ----------

  lemma IdentifierLessStrict(x: string, y: string, z: string)
    ensures !IdentifierLess(x, x)
    ensures !(IdentifierLess(x, y) && IdentifierLess(y, x))
    ensures IdentifierLess(x, y) && IdentifierLess(y, z) ==> IdentifierLess(x, z)
  {
    TextLessTotal(x, y);
    if TextLess(x, y) && TextLess(y, z) {
      TextLessTransitive(x, y, z);
    }
  }

  lemma {:induction false} PreLessStrict(x: seq<string>, y: seq<string>, z: seq<string>)
    ensures !PreLess(x, x)
    ensures !(PreLess(x, y) && PreLess(y, x))
    ensures PreLess(x, y) && PreLess(y, z) ==> PreLess(x, z)
    decreases |x| + |y| + |z|
  {
    if x != [] {
      PreLessStrict(x[1..], if y == [] then [] else y[1..], if z == [] then [] else z[1..]);
      if y != [] {
        IdentifierLessStrict(x[0], y[0], if z == [] then x[0] else z[0]);
      }
    }
  }

  lemma {:induction false} CoreLessStrict(x: seq<int>, y: seq<int>, z: seq<int>)
    requires |x| == |y| == |z|
    ensures !CoreLess(x, x)
    ensures !(CoreLess(x, y) && CoreLess(y, x))
    ensures CoreLess(x, y) && CoreLess(y, z) ==> CoreLess(x, z)
  {
    if x != [] {
      CoreLessStrict(x[1..], y[1..], z[1..]);
    }
  }

  lemma OlderIsStrictOrder(a: string, b: string, c: string)
    ensures !IsOlder(a, a)
    ensures !(IsOlder(a, b) && IsOlder(b, a))
    ensures IsOlder(a, b) && IsOlder(b, c) ==> IsOlder(a, c)
  {
    var x, y, z := ParseVersion(a).0, ParseVersion(b).0, ParseVersion(c).0;
    CoreLessStrict(x.core, y.core, z.core);
    PreLessStrict(x.pre, y.pre, z.pre);
  }
}
