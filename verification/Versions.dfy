/** Version strings and the comparisons made on them (`modupdate/util.go`). */
module Versions {
  import opened Wrappers
  import opened Dotted
  import opened Text

  datatype Operator = Unknown | Less | LessEq | Equal | GreaterEq | Greater

  datatype Version = Version(major: int, minor: int, patch: int)

  datatype VersionError = BadVersion | BadOperator

  // ----------------------------------------------------------------------- parsing

  predicate IsDigit(c: char)
  {
    '0' <= c <= '9'
  }

  function DigitOf(c: char): nat
  {
    if IsDigit(c) then c as int - '0' as int else 0
  }

  /** `strconv.ParseInt(s, 10, 64)`. */
  function ParseInt(s: string): Option<int>
  {
    var digits := if s != "" && (s[0] == '-' || s[0] == '+') then s[1..] else s;
    if digits == "" || !All(digits, IsDigit) then None
    else
      var size: int := Decimal(digits, DigitOf);
      var n := if s[0] == '-' then -size else size;
      if -0x8000_0000_0000_0000 <= n < 0x8000_0000_0000_0000 then Some(n) else None
  }

  /** `versionToInt`: three numbers, or two and a zero. */
  function VersionToInt(data: string): Option<Version>
  {
    var parts := Split(data);
    if |parts| != 2 && |parts| != 3 then None
    else if ParseInt(parts[0]).None? || ParseInt(parts[1]).None? then None
    else if |parts| == 2 then Some(Version(ParseInt(parts[0]).value, ParseInt(parts[1]).value, 0))
    else if ParseInt(parts[2]).None? then None
    else Some(Version(ParseInt(parts[0]).value, ParseInt(parts[1]).value, ParseInt(parts[2]).value))
  }

  // --------------------------------------------------------------------- comparing

  /** `compareVersions`: how the second number stands to the first. */
  function CompareNumbers(op: Operator, a: int, b: int): Result<bool, VersionError>
  {
    match op
    case Less => Ok(b < a)
    case LessEq => Ok(b <= a)
    case Equal => Ok(b == a)
    case GreaterEq => Ok(b >= a)
    case Greater => Ok(b > a)
    case Unknown => Err(BadOperator)
  }

  /** `checkVersion`: whether `remote` stands in the relation `op` to `local`. */
  function CheckVersion(op: Operator, local: string, remote: string): Result<bool, VersionError>
  {
    var c, r := VersionToInt(local), VersionToInt(remote);
    if c.None? || r.None? then Err(BadVersion)
    else if r.value.major != c.value.major then CompareNumbers(op, c.value.major, r.value.major)
    else if r.value.minor != c.value.minor then CompareNumbers(op, c.value.minor, r.value.minor)
    else if r.value.patch != c.value.patch then CompareNumbers(op, c.value.patch, r.value.patch)
    else CompareNumbers(op, 0, 0)
  }

  /** The order of versions. */
  predicate Before(a: Version, b: Version)
  {
    || a.major < b.major
    || (a.major == b.major && a.minor < b.minor)
    || (a.major == b.major && a.minor == b.minor && a.patch < b.patch)
  }

  lemma BeforeIsTotalOrder(a: Version, b: Version, c: Version)
    ensures !Before(a, a)
    ensures Before(a, b) && Before(b, c) ==> Before(a, c)
    ensures a == b || Before(a, b) || Before(b, a)
    ensures !(Before(a, b) && Before(b, a))
  {
  }

  /** How the version one has stands to the one that is asked for. */
  predicate Stands(op: Operator, want: Version, have: Version)
  {
    match op
    case Less => Before(have, want)
    case LessEq => !Before(want, have)
    case Equal => have == want
    case GreaterEq => !Before(have, want)
    case Greater => Before(want, have)
    case Unknown => false
  }

  /** Every comparison is the one its operator names, in the order of versions; it fails
      exactly for a malformed version or an unknown operator. */
  lemma CheckIsOrder(op: Operator, local: string, remote: string)
    ensures CheckVersion(op, local, remote).Err? <==>
      VersionToInt(local).None? || VersionToInt(remote).None? || op == Unknown
    ensures CheckVersion(op, local, remote).Ok? ==>
      (CheckVersion(op, local, remote).value <==> Stands(op, VersionToInt(local).value, VersionToInt(remote).value))
  {
    hide VersionToInt;
  }

  /** `remote` is strictly newer than `local`. */
  predicate Newer(local: string, remote: string)
  {
    CheckVersion(Greater, local, remote) == Ok(true)
  }

  predicate Parses(v: string)
  {
    VersionToInt(v).Some?
  }

  lemma NewerIsOrder(a: string, b: string, c: string)
    ensures !Newer(a, a)
    ensures Newer(a, b) && Newer(b, c) ==> Newer(a, c)
    ensures Newer(a, b) ==> Parses(a) && Parses(b) && !Newer(b, a)
    ensures Parses(a) && Parses(b) && Parses(c) && !Newer(a, b) && !Newer(b, c) ==> !Newer(a, c)
    ensures Newer(a, b) && Parses(c) && !Newer(c, b) ==> Newer(a, c)
    ensures Newer(a, b) && Parses(c) && !Newer(a, c) ==> Newer(c, b)
  {
    hide VersionToInt;
  }

  // -------------------------------------------------------------------- round trip

  function Print(n: nat): string
  {
    if n < 10 then [('0' as int + n) as char] else Print(n / 10) + [('0' as int + n % 10) as char]
  }

  lemma {:induction false} PrintParses(n: nat)
    ensures Print(n) != "" && All(Print(n), IsDigit) && Decimal(Print(n), DigitOf) == n && Undotted(Print(n))
  {
    if n >= 10 {
      PrintParses(n / 10);
      var s := Print(n);
      assert s[..|s| - 1] == Print(n / 10);
    } else {
      assert Print(n)[..0] == "";
    }
  }

  const MAX_INT64: nat := 0x7FFF_FFFF_FFFF_FFFF

  lemma PartParses(n: nat)
    requires n <= MAX_INT64
    ensures ParseInt(Print(n)) == Some(n)
  {
    PrintParses(n);
    assert IsDigit(Print(n)[0]);
  }

  lemma JoinThree(a: string, b: string, c: string)
    ensures Join([a, b, c]) == a + "." + b + "." + c
  {
    assert [a, b, c][1..] == [b, c] && [b, c][1..] == [c];
    assert Join([b, c]) == b + "." + c;
    assert a + "." + (b + "." + c) == a + "." + b + "." + c;
  }

  lemma JoinTwo(a: string, b: string)
    ensures Join([a, b]) == a + "." + b
  {
    assert [a, b][1..] == [b];
  }

  /** A version printed with three numbers reads back as itself, and one printed with two as
      the one with a zero at the end. */
  lemma VersionRoundTrip(a: nat, b: nat, c: nat)
    requires a <= MAX_INT64 && b <= MAX_INT64 && c <= MAX_INT64
    ensures VersionToInt(Print(a) + "." + Print(b) + "." + Print(c)) == Some(Version(a, b, c))
    ensures VersionToInt(Print(a) + "." + Print(b)) == Some(Version(a, b, 0))
  {
    hide ParseInt, Print, Split, Join;
    PrintParses(a);
    PrintParses(b);
    PrintParses(c);
    PartParses(a);
    PartParses(b);
    PartParses(c);
    JoinThree(Print(a), Print(b), Print(c));
    JoinTwo(Print(a), Print(b));
    SplitJoin([Print(a), Print(b), Print(c)]);
    SplitJoin([Print(a), Print(b)]);
  }
}
