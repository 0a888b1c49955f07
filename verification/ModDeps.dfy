/** Dependency strings of mods (`modupdate/newUpdate.go`, `modupdate/util.go`). */
module ModDeps {
  import opened Wrappers
  import opened Text
  import opened Versions

  /** A parsed dependency; without a version any will do. */
  datatype Dep = Dep(name: string, op: Operator, version: string, optional: bool, incompatible: bool)

  /** `IsBaseMod`. */
  predicate IsBaseMod(name: string)
  {
    name == "base" || name == "elevated-rails" || name == "quality" || name == "space-age" || name == "recycler"
  }

  // ------------------------------------------------------------------------- text

  predicate IsSpace(c: char)
  {
    c == ' ' || '\t' <= c <= '\r'
  }

  /** `strings.TrimSpace`, on ASCII spaces. */
  function Trim(s: string): string
  {
    TrimBoth(s, IsSpace)
  }

  function TrimPrefix(s: string, prefix: string): string
  {
    if prefix <= s then s[|prefix|..] else s
  }

  // ----------------------------------------------------------------------- parsing

  predicate IsOp(c: char)
  {
    c == '<' || c == '>' || c == '='
  }

  /** `parseOperator`. */
  function ParseOperator(s: string): Operator
  {
    if s == "<" then Less
    else if s == "<=" then LessEq
    else if s == "=" then Equal
    else if s == ">=" then GreaterEq
    else if s == ">" then Greater
    else Unknown
  }

  /** The loop of `parseDep` that finds where the name ends and the version starts. */
  function ScanOps(s: string, i: nat, nameEnd: nat, versionStart: nat): (nat, nat)
    requires i <= |s|
    decreases |s| - i
  {
    if i == |s| then (nameEnd, versionStart)
    else if IsOp(s[i]) then ScanOps(s, i + 1, if nameEnd == 0 then i else nameEnd, i)
    else ScanOps(s, i + 1, nameEnd, versionStart)
  }

  /** Where no operator is found past the first character the whole string is the name. */
  lemma {:induction false} ScanInRange(s: string, i: nat, nameEnd: nat, versionStart: nat)
    requires i <= |s| && nameEnd <= versionStart && (versionStart < |s| || (s == "" && versionStart == 0))
    requires versionStart <= i
    ensures var r := ScanOps(s, i, nameEnd, versionStart);
      r.0 <= r.1 && (r.1 < |s| || (s == "" && r.1 == 0))
    decreases |s| - i
  {
    if i < |s| {
      if IsOp(s[i]) {
        ScanInRange(s, i + 1, if nameEnd == 0 then i else nameEnd, i);
      } else {
        ScanInRange(s, i + 1, nameEnd, versionStart);
      }
    }
  }

  function WithoutMarks(s: string): string
  {
    TrimPrefix(TrimPrefix(TrimPrefix(TrimPrefix(TrimPrefix(s, "~"), "!"), "?"), "(?)"), "( ? )")
  }

  predicate IsOptional(s: string)
  {
    "?" <= s || "(?)" <= s || "( ? )" <= s
  }

  /** The end of `parseDep`, once the marks are gone. */
  function ParseBody(body: string, optional: bool, incompatible: bool): Dep
  {
    ScanInRange(body, 0, 0, 0);
    var (nameEnd, versionStart) := ScanOps(body, 0, 0, 0);
    if nameEnd == 0 then Dep(body, Unknown, "", optional, incompatible)
    else
      Dep(Trim(body[..nameEnd]), ParseOperator(Trim(body[nameEnd..versionStart + 1])), Trim(body[versionStart + 1..]),
          optional, incompatible)
  }

  /** `parseDep`. */
  function ParseDep(raw: string): Dep
  {
    var input := Trim(raw);
    var body := Trim(WithoutMarks(input));
    ParseBody(body, IsOptional(input), '!' in input)
  }

  // --------------------------------------------------------------------- read back

  predicate Blank(s: string)
  {
    All(s, IsSpace)
  }

  /** Neither end of the string is a space. */
  predicate Tight(s: string)
  {
    s != "" && !IsSpace(s[0]) && !IsSpace(s[|s| - 1])
  }

  lemma TrimKeeps(left: string, s: string, right: string)
    requires Blank(left) && Tight(s) && Blank(right)
    ensures Trim(left + s + right) == s
  {
    TrimTakesPadding(left, s, right, IsSpace);
  }

  lemma TightStays(s: string)
    requires Tight(s)
    ensures Trim(s) == s
  {
    assert "" + s + "" == s;
    TrimKeeps("", s, "");
  }

  /** A name or version as mods write them: no operator, no mark, no space at the ends. */
  predicate Plain(s: string)
  {
    && Tight(s)
    && s[0] !in {'~', '?', '('}
    && forall i :: 0 <= i < |s| ==> !IsOp(s[i]) && s[i] != '!'
  }

  /** The marks that may precede a dependency, and what they say. */
  datatype Mark = Required | Unordered | Optional | HiddenOptional | SpacedOptional | Incompatible

  function MarkText(m: Mark): string
  {
    match m
    case Required => ""
    case Unordered => "~"
    case Optional => "?"
    case HiddenOptional => "(?)"
    case SpacedOptional => "( ? )"
    case Incompatible => "!"
  }

  predicate SaysOptional(m: Mark)
  {
    m == Optional || m == HiddenOptional || m == SpacedOptional
  }

  function OpText(op: Operator): string
    requires op != Unknown
  {
    match op
    case Less => "<"
    case LessEq => "<="
    case Equal => "="
    case GreaterEq => ">="
    case Greater => ">"
  }

  /** Once past the operators the scan only walks on. */
  lemma {:induction false} ScanPlain(s: string, i: nat, nameEnd: nat, versionStart: nat, n: nat)
    requires i <= n <= |s| && forall j :: i <= j < n ==> !IsOp(s[j])
    ensures ScanOps(s, i, nameEnd, versionStart) == ScanOps(s, n, nameEnd, versionStart)
    decreases n - i
  {
    if i < n { ScanPlain(s, i + 1, nameEnd, versionStart, n); }
  }

  lemma OtherPrefix(s: string, prefix: string, at: nat)
    requires at < |prefix| && at < |s| && s[at] != prefix[at]
    ensures !(prefix <= s) && TrimPrefix(s, prefix) == s
  {
  }

  lemma OwnPrefix(prefix: string, rest: string)
    ensures prefix <= prefix + rest && TrimPrefix(prefix + rest, prefix) == rest
  {
  }

  /** The first character of what follows a mark. */
  predicate Unmarked(rest: string)
  {
    rest != "" && rest[0] != '~' && rest[0] != '!' && rest[0] != '?' && rest[0] != '('
  }

  lemma UnmarkedStays(rest: string)
    requires Unmarked(rest)
    ensures TrimPrefix(rest, "~") == rest && TrimPrefix(rest, "!") == rest && TrimPrefix(rest, "?") == rest
    ensures TrimPrefix(rest, "(?)") == rest && TrimPrefix(rest, "( ? )") == rest
    ensures !IsOptional(rest)
  {
    OtherPrefix(rest, "~", 0);
    OtherPrefix(rest, "!", 0);
    OtherPrefix(rest, "?", 0);
    OtherPrefix(rest, "(?)", 0);
    OtherPrefix(rest, "( ? )", 0);
  }

  lemma UnorderedIsTaken(rest: string)
    requires Unmarked(rest)
    ensures WithoutMarks("~" + rest) == rest && !IsOptional("~" + rest)
  {
    UnmarkedStays(rest);
    OwnPrefix("~", rest);
    OtherPrefix("~" + rest, "?", 0);
    OtherPrefix("~" + rest, "(?)", 0);
    OtherPrefix("~" + rest, "( ? )", 0);
    hide TrimPrefix;
  }

  lemma IncompatibleIsTaken(rest: string)
    requires Unmarked(rest)
    ensures WithoutMarks("!" + rest) == rest && !IsOptional("!" + rest)
  {
    UnmarkedStays(rest);
    OtherPrefix("!" + rest, "~", 0);
    OwnPrefix("!", rest);
    OtherPrefix("!" + rest, "?", 0);
    OtherPrefix("!" + rest, "(?)", 0);
    OtherPrefix("!" + rest, "( ? )", 0);
    hide TrimPrefix;
  }

  lemma OptionalIsTaken(rest: string)
    requires Unmarked(rest)
    ensures WithoutMarks("?" + rest) == rest && IsOptional("?" + rest)
  {
    UnmarkedStays(rest);
    OtherPrefix("?" + rest, "~", 0);
    OtherPrefix("?" + rest, "!", 0);
    OwnPrefix("?", rest);
    hide TrimPrefix;
  }

  lemma HiddenIsTaken(rest: string)
    requires Unmarked(rest)
    ensures WithoutMarks("(?)" + rest) == rest && IsOptional("(?)" + rest)
  {
    UnmarkedStays(rest);
    OtherPrefix("(?)" + rest, "~", 0);
    OtherPrefix("(?)" + rest, "!", 0);
    OtherPrefix("(?)" + rest, "?", 0);
    OwnPrefix("(?)", rest);
    hide TrimPrefix;
  }

  lemma SpacedIsTaken(rest: string)
    requires Unmarked(rest)
    ensures WithoutMarks("( ? )" + rest) == rest && IsOptional("( ? )" + rest)
  {
    UnmarkedStays(rest);
    OtherPrefix("( ? )" + rest, "~", 0);
    OtherPrefix("( ? )" + rest, "!", 0);
    OtherPrefix("( ? )" + rest, "?", 0);
    OtherPrefix("( ? )" + rest, "(?)", 1);
    OwnPrefix("( ? )", rest);
    hide TrimPrefix;
  }

  lemma MarksAreTaken(m: Mark, rest: string)
    requires Unmarked(rest)
    ensures WithoutMarks(MarkText(m) + rest) == rest
    ensures IsOptional(MarkText(m) + rest) <==> SaysOptional(m)
  {
    hide WithoutMarks, IsOptional, Unmarked;
    match m {
      case Required =>
        assert "" + rest == rest;
        RequiredIsTaken(rest);
      case Unordered => UnorderedIsTaken(rest);
      case Optional => OptionalIsTaken(rest);
      case HiddenOptional => HiddenIsTaken(rest);
      case SpacedOptional => SpacedIsTaken(rest);
      case Incompatible => IncompatibleIsTaken(rest);
    }
  }

  lemma RequiredIsTaken(rest: string)
    requires Unmarked(rest)
    ensures WithoutMarks(rest) == rest && !IsOptional(rest)
  {
    UnmarkedStays(rest);
    hide TrimPrefix;
  }

  /** A dependency with a version, however many spaces it is written with, reads back as the
      name, operator, version and mark it was written from. */
  lemma VersionedReadsBack(m: Mark, name: string, op: Operator, version: string, gap: string, left: string, right: string)
    requires Plain(name) && Plain(version) && op != Unknown && Blank(gap) && Blank(left) && Blank(right)
    requires m == Required ==> gap == ""
    ensures ParseDep(MarkText(m) + gap + (name + left + OpText(op) + right + version))
         == Dep(name, op, version, SaysOptional(m), m == Incompatible)
  {
    hide ParseBody, MarkText, OpText, Trim, Blank, Plain, Tight;
    var body := name + left + OpText(op) + right + version;
    NoMarkInside(name, left, op, right, version);
    InputParses(m, gap, body);
    BodyParses(name, left, op, right, version, SaysOptional(m), m == Incompatible);
  }

  lemma MarkShape(m: Mark)
    ensures MarkText(m) == "" <==> m == Required
    ensures m != Required ==> !IsSpace(MarkText(m)[0])
    ensures '!' in MarkText(m) <==> m == Incompatible
  {
  }

  lemma InWhole(c: char, a: string, b: string, d: string)
    ensures c in a + b + d <==> c in a || c in b || c in d
  {
  }

  lemma BlankHasNoMark(gap: string)
    requires Blank(gap)
    ensures '!' !in gap
    ensures gap == "" || Unmarked(gap)
  {
  }

  lemma InputParses(m: Mark, gap: string, body: string)
    requires Blank(gap) && Tight(body) && Unmarked(body) && '!' !in body
    requires m == Required ==> gap == ""
    ensures ParseDep(MarkText(m) + gap + body) == ParseBody(body, SaysOptional(m), m == Incompatible)
  {
    hide WithoutMarks, IsOptional, ParseBody, Trim, MarkText, Blank, Tight, Unmarked;
    TrimOfInput(m, gap, body);
    InWhole('!', MarkText(m), gap, body);
    MarkShape(m);
    BlankHasNoMark(gap);
  }

  lemma BodyParses(name: string, left: string, op: Operator, right: string, version: string, optional: bool, incompatible: bool)
    requires Plain(name) && Plain(version) && op != Unknown && Blank(left) && Blank(right)
    ensures ParseBody(name + left + OpText(op) + right + version, optional, incompatible)
         == Dep(name, op, version, optional, incompatible)
  {
    hide ScanOps, Trim, Plain, Blank, OpText, ParseOperator, Tight, Unmarked;
    var body := name + left + OpText(op) + right + version;
    var a := |name| + |left|;
    var b := a + |OpText(op)|;
    Slices(name, left, OpText(op), right, version);
    OpReadsBack(op);
    NoMarkInside(name, left, op, right, version);
    VersionFollows(name, version);
    ScanBody(body, a, b);
    TrimParts(name, left, right, version);
  }

  lemma VersionFollows(name: string, version: string)
    requires Plain(name) && Plain(version)
    ensures name != "" && version != ""
  {
  }

  lemma Slices(name: string, left: string, op: string, right: string, version: string)
    ensures var body := name + left + op + right + version;
      var a := |name| + |left|;
      && body[..a] == name + left && body[a..a + |op|] == op && body[a + |op|..] == right + version
  {
  }

  lemma OpReadsBack(op: Operator)
    requires op != Unknown
    ensures ParseOperator(Trim(OpText(op))) == op && 1 <= |OpText(op)| <= 2
  {
    TightStays(OpText(op));
    hide Trim;
  }

  lemma TrimParts(name: string, left: string, right: string, version: string)
    requires Plain(name) && Plain(version) && Blank(left) && Blank(right)
    ensures Trim(name + left) == name && Trim(right + version) == version
  {
    assert "" + name + left == name + left;
    TrimKeeps("", name, left);
    assert right + version + "" == right + version;
    TrimKeeps(right, version, "");
  }

  lemma TrimOfInput(m: Mark, gap: string, body: string)
    requires Blank(gap) && Tight(body) && Unmarked(body)
    requires m == Required ==> gap == ""
    ensures Trim(MarkText(m) + gap + body) == MarkText(m) + gap + body
    ensures WithoutMarks(MarkText(m) + gap + body) == gap + body && Trim(gap + body) == body
    ensures IsOptional(MarkText(m) + gap + body) <==> SaysOptional(m)
  {
    hide WithoutMarks, IsOptional, Trim, MarkText;
    var input := MarkText(m) + gap + body;
    MarkShape(m);
    BlankHasNoMark(gap);
    assert Tight(input);
    TightStays(input);
    assert input == MarkText(m) + (gap + body);
    assert Unmarked(gap + body);
    MarksAreTaken(m, gap + body);
    assert gap + body + "" == gap + body;
    TrimKeeps(gap, body, "");
  }

  lemma NoMarkInside(name: string, left: string, op: Operator, right: string, version: string)
    requires Plain(name) && Plain(version) && op != Unknown && Blank(left) && Blank(right)
    ensures var body := name + left + OpText(op) + right + version;
      && Tight(body) && Unmarked(body) && '!' !in body
      && (forall j :: 0 <= j < |name| + |left| ==> !IsOp(body[j]))
      && (forall j :: |name| + |left| + |OpText(op)| <= j < |body| ==> !IsOp(body[j]))
      && (forall j :: |name| + |left| <= j < |name| + |left| + |OpText(op)| ==> IsOp(body[j]))
  {
    var body := name + left + OpText(op) + right + version;
    assert body[0] == name[0] && body[|body| - 1] == version[|version| - 1];
    assert forall c :: c in body <==> c in name || c in left || c in OpText(op) || c in right || c in version;
  }

  lemma ScanBody(body: string, a: nat, b: nat)
    requires 0 < a < b <= a + 2 && b <= |body|
    requires forall j :: 0 <= j < a ==> !IsOp(body[j])
    requires forall j :: b <= j < |body| ==> !IsOp(body[j])
    requires forall j :: a <= j < b ==> IsOp(body[j])
    requires b < |body|
    ensures ScanOps(body, 0, 0, 0) == (a, b - 1)
  {
    ScanPlain(body, 0, 0, 0, a);
    ScanPlain(body, b, a, b - 1, |body|);
    if b == a + 2 { assert ScanOps(body, a + 1, a, a) == ScanOps(body, a + 2, a, a + 1); }
  }

  /** A dependency without a version reads back as its name and mark. */
  lemma UnversionedReadsBack(m: Mark, name: string, gap: string)
    requires Plain(name) && Blank(gap) && (m == Required ==> gap == "")
    ensures ParseDep(MarkText(m) + gap + name) == Dep(name, Unknown, "", SaysOptional(m), m == Incompatible)
  {
    InputParses(m, gap, name);
    ScanPlain(name, 0, 0, 0, |name|);
    hide ParseDep, MarkText, Trim;
  }

  lemma MarkedNameIsPlain(gap: string, name: string)
    requires Plain(name) && Blank(gap)
    ensures Plain("+" + gap + name)
  {
    var marked := "+" + gap + name;
    BlankHasNoMark(gap);
    assert marked[0] == '+' && marked[|marked| - 1] == name[|name| - 1];
    forall i | 0 <= i < |marked| ensures !IsOp(marked[i]) && marked[i] != '!' {
      if 0 < i <= |gap| { assert marked[i] == gap[i - 1]; }
      if |gap| < i { assert marked[i] == name[i - 1 - |gap|]; }
    }
  }

  /** The mark of a recommended dependency is not one of them: with or without a version, and
      however it is spaced, it stays part of the name. */
  lemma RecommendationStaysInName(gap: string, name: string, op: Operator, version: string, left: string, right: string)
    requires Plain(name) && Plain(version) && op != Unknown && Blank(gap) && Blank(left) && Blank(right)
    ensures ParseDep("+" + gap + name) == Dep("+" + gap + name, Unknown, "", false, false)
    ensures ParseDep("+" + gap + name + left + OpText(op) + right + version)
         == Dep("+" + gap + name, op, version, false, false)
  {
    hide ParseDep, Plain, OpText, Blank;
    var marked := "+" + gap + name;
    MarkedNameIsPlain(gap, name);
    EmptyIsBlank();
    UnversionedReadsBack(Required, marked, "");
    VersionedReadsBack(Required, marked, op, version, "", left, right);
    assert MarkText(Required) + "" + marked == marked;
    var whole := marked + left + OpText(op) + right + version;
    assert MarkText(Required) + "" + whole == whole;
  }

  lemma EmptyIsBlank()
    ensures Blank("")
  {
  }
}
