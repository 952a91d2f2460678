/** The text checks the controllers share: JavaScript's whitespace and `trim`, string length in
    UTF-16 code units, and the three regular expressions of the controllers (the UUID pattern,
    the e-mail pattern and the subdomain pattern), each written as the pattern reads and proved
    equal to a plain description of the strings it accepts. */
module Validation {
  import opened Types
  import opened Listing

  // ---------------------------------------------------------------- whitespace, trim, length

  /** JavaScript's WhiteSpace and LineTerminator characters: what `\s` matches and `trim` removes. */
  predicate IsJsSpace(c: char)
  {
    c == '\t' || c == '\n' || c == '\U{B}' || c == '\U{C}' || c == '\r' || c == ' '
    || c == '\U{A0}' || c == '\U{1680}' || ('\U{2000}' <= c <= '\U{200A}')
    || c == '\U{2028}' || c == '\U{2029}' || c == '\U{202F}' || c == '\U{205F}'
    || c == '\U{3000}' || c == '\U{FEFF}'
  }

  predicate Blank(s: string)
  {
    forall i | 0 <= i < |s| :: IsJsSpace(s[i])
  }

  function TrimStart(s: string): (r: string)
    ensures |r| <= |s| && r == s[|s| - |r|..]
    ensures Blank(s[..|s| - |r|])
    ensures r == [] || !IsJsSpace(r[0])
  {
    if |s| > 0 && IsJsSpace(s[0]) then
      var r := TrimStart(s[1..]);
      assert s[1..][..|s| - 1 - |r|] == s[1..|s| - |r|];
      r
    else s
  }

  function TrimEnd(s: string): (r: string)
    ensures |r| <= |s| && r == s[..|r|]
    ensures Blank(s[|r|..])
    ensures r == [] ==> Blank(s)
    ensures r == [] || !IsJsSpace(r[|r| - 1])
  {
    if |s| > 0 && IsJsSpace(s[|s| - 1]) then
      var r := TrimEnd(s[..|s| - 1]);
      assert s[..|s| - 1][|r|..] == s[|r|..|s| - 1];
      assert forall i | |r| <= i < |s| :: IsJsSpace(s[i]) by {
        forall i | |r| <= i < |s| ensures IsJsSpace(s[i]) {
          if i < |s| - 1 {
            assert s[i] == s[|r|..|s| - 1][i - |r|];
          }
        }
      }
      r
    else s
  }

  /** `s.trim()`. */
  function Trim(s: string): string
  {
    TrimEnd(TrimStart(s))
  }

  /** `s.trim().length === 0` holds exactly of the strings made only of whitespace. */
  lemma TrimEmptyIffBlank(s: string)
    ensures |Trim(s)| == 0 <==> Blank(s)
  {
    var t := TrimStart(s);
    var k := |s| - |t|;
    forall j | 0 <= j < k ensures IsJsSpace(s[j]) { assert s[..k][j] == s[j]; }
    forall j | 0 <= j < |t| ensures t[j] == s[k + j] {}
  }

  /** `s.length` in JavaScript counts UTF-16 code units: characters outside the Basic
      Multilingual Plane count twice. */
  function Utf16Length(s: string): (n: nat)
    ensures |s| <= n <= 2 * |s|
  {
    if |s| == 0 then 0
    else (if s[0] as int > 0xFFFF then 2 else 1) + Utf16Length(s[1..])
  }

  // ---------------------------------------------------------------- the UUID pattern

  /** `[0-9a-f]` under the `i` flag. */
  predicate IsHexDigit(c: char)
  {
    '0' <= c <= '9' || 'a' <= c <= 'f' || 'A' <= c <= 'F'
  }

  predicate AllHex(s: string)
  {
    forall i | 0 <= i < |s| :: IsHexDigit(s[i])
  }

  /** The whole string is runs of hex digits with the lengths in `groups`, joined by hyphens. */
  predicate MatchesGroups(s: string, groups: seq<nat>)
    decreases |groups|
  {
    if |groups| == 0 then false
    else if |groups| == 1 then |s| == groups[0] && AllHex(s)
    else
      |s| > groups[0] && AllHex(s[..groups[0]]) && s[groups[0]] == '-'
      && MatchesGroups(s[groups[0] + 1..], groups[1..])
  }

  /** `/^[0-9a-f]{8}-[0-9a-f]{4}-[0-9a-f]{4}-[0-9a-f]{4}-[0-9a-f]{12}$/i.test(s)`. */
  predicate IsUuid(s: string)
  {
    MatchesGroups(s, [8, 4, 4, 4, 12])
  }

  predicate IsHyphenSlot(i: int)
  {
    i == 8 || i == 13 || i == 18 || i == 23
  }

  /** The textual UUID layout of section 3 of RFC 4122: 36 characters, hyphens at positions
      8, 13, 18 and 23, hexadecimal digits of either case everywhere else. */
  predicate UuidShape(s: string)
  {
    |s| == 36
    && forall i | 0 <= i < 36 :: if IsHyphenSlot(i) then s[i] == '-' else IsHexDigit(s[i])
  }

  lemma MatchesGroupsStep(s: string, n: nat, rest: seq<nat>)
    requires |rest| > 0
    ensures MatchesGroups(s, [n] + rest)
        <==> |s| > n && AllHex(s[..n]) && s[n] == '-' && MatchesGroups(s[n + 1..], rest)
  {
    assert ([n] + rest)[1..] == rest;
  }

  /** Hex digits on [lo, hi) of `s`, stated on positions. */
  predicate HexOn(s: string, lo: int, hi: int)
    requires 0 <= lo <= hi <= |s|
  {
    forall i | lo <= i < hi :: IsHexDigit(s[i])
  }

  lemma AllHexSlice(s: string, lo: int, hi: int)
    requires 0 <= lo <= hi <= |s|
    ensures AllHex(s[lo..hi]) <==> HexOn(s, lo, hi)
  {
    if AllHex(s[lo..hi]) {
      forall i | lo <= i < hi ensures IsHexDigit(s[i]) { assert s[lo..hi][i - lo] == s[i]; }
    }
  }

  /** The regular expression accepts exactly the strings of UUID layout. */
  lemma {:induction false} UuidPatternIsShape(s: string)
    ensures IsUuid(s) <==> UuidShape(s)
  {
    MatchesGroupsStep(s, 8, [4, 4, 4, 12]);
    if |s| > 8 {
      var s1 := s[9..];
      MatchesGroupsStep(s1, 4, [4, 4, 12]);
      if |s1| > 4 {
        var s2 := s1[5..];
        MatchesGroupsStep(s2, 4, [4, 12]);
        if |s2| > 4 {
          var s3 := s2[5..];
          MatchesGroupsStep(s3, 4, [12]);
          if |s3| > 4 {
            var s4 := s3[5..];
            assert s1[..4] == s[9..13] && s2[..4] == s[14..18] && s3[..4] == s[19..23];
            assert s4 == s[24..] && s1[4] == s[13] && s2[4] == s[18] && s3[4] == s[23];
            if |s| == 36 {
              AllHexSlice(s, 0, 8);
              AllHexSlice(s, 9, 13);
              AllHexSlice(s, 14, 18);
              AllHexSlice(s, 19, 23);
              AllHexSlice(s, 24, 36);
              assert s[..8] == s[0..8] && s[24..] == s[24..36];
            }
          }
        }
      }
    }
  }

  // ---------------------------------------------------------------- the e-mail pattern

  /** `[^\s@]`. */
  predicate EmailChar(c: char)
  {
    !IsJsSpace(c) && c != '@'
  }

  /** `/^[^\s@]+@[^\s@]+\.[^\s@]+$/.test(s)`: a non-empty run, '@', a non-empty run, a dot and
      a non-empty run, no run holding whitespace or '@' (the runs may hold dots). */
  predicate IsEmail(s: string)
  {
    exists at, dot | 0 < at < |s| && at + 1 < dot < |s| - 1 ::
      s[at] == '@' && s[dot] == '.' && forall k | 0 <= k < |s| && k != at :: EmailChar(s[k])
  }

  function Occurrences(s: string, c: char): nat
  {
    if |s| == 0 then 0 else (if s[0] == c then 1 else 0) + Occurrences(s[1..], c)
  }

  /** A dot that is neither the first nor the last character. */
  predicate InnerDot(d: string)
  {
    exists k | 0 < k < |d| - 1 :: d[k] == '.'
  }

  /** Exactly one '@', no whitespace, a non-empty part before the '@', and a part after it
      holding a dot that is neither its first nor its last character. */
  predicate EmailShape(s: string)
  {
    && Occurrences(s, '@') == 1
    && (forall k | 0 <= k < |s| :: !IsJsSpace(s[k]))
    && exists at | 0 <= at < |s| :: s[at] == '@' && at > 0 && InnerDot(s[at + 1..])
  }

  lemma {:induction false} OccurrencesOne(s: string, c: char, i: int)
    requires 0 <= i < |s| && s[i] == c
    ensures Occurrences(s, c) == 1 <==> forall j | 0 <= j < |s| :: s[j] == c ==> j == i
  {
    if i == 0 {
      OccurrencesNone(s[1..], c);
      if Occurrences(s, c) != 1 {
        var j :| 0 <= j < |s[1..]| && s[1..][j] == c;
        assert s[j + 1] == c;
      } else {
        forall j | 0 < j < |s| ensures s[j] != c { assert s[1..][j - 1] == s[j]; }
      }
    } else {
      OccurrencesOne(s[1..], c, i - 1);
      if s[0] == c {
        assert Occurrences(s, c) != 1 by { OccurrencesPositive(s[1..], c, i - 1); }
      } else {
        forall j | 0 < j < |s| ensures (s[j] == c ==> j == i) <==> (s[1..][j - 1] == c ==> j - 1 == i - 1) {}
      }
    }
  }

  lemma {:induction false} OccurrencesNone(s: string, c: char)
    ensures Occurrences(s, c) == 0 <==> forall j | 0 <= j < |s| :: s[j] != c
  {
    if |s| > 0 {
      OccurrencesNone(s[1..], c);
      forall j | 0 < j < |s| ensures s[j] == s[1..][j - 1] {}
    }
  }

  lemma {:induction false} OccurrencesPositive(s: string, c: char, i: int)
    requires 0 <= i < |s| && s[i] == c
    ensures Occurrences(s, c) >= 1
  {
    if i > 0 { OccurrencesPositive(s[1..], c, i - 1); }
  }

  /** The e-mail regular expression accepts exactly the strings the description names. */
  lemma EmailPatternIsShape(s: string)
    ensures IsEmail(s) <==> EmailShape(s)
  {
    if IsEmail(s) {
      var at, dot :| 0 < at < |s| && at + 1 < dot < |s| - 1 && s[at] == '@' && s[dot] == '.'
        && forall k | 0 <= k < |s| && k != at :: EmailChar(s[k]);
      OccurrencesOne(s, '@', at);
      var d := s[at + 1..];
      assert d[dot - at - 1] == '.';
      assert InnerDot(d);
    }
    if EmailShape(s) {
      var at :| 0 <= at < |s| && s[at] == '@' && at > 0 && InnerDot(s[at + 1..]);
      OccurrencesOne(s, '@', at);
      var d := s[at + 1..];
      var k :| 0 < k < |d| - 1 && d[k] == '.';
      var dot := at + 1 + k;
      assert s[dot] == '.';
      assert forall j | 0 <= j < |s| && j != at :: EmailChar(s[j]);
    }
  }

  // ---------------------------------------------------------------- the subdomain pattern

  /** `[a-z0-9]`. */
  predicate LowerAlnum(c: char)
  {
    'a' <= c <= 'z' || '0' <= c <= '9'
  }

  /** `/^[a-z0-9]([a-z0-9-]*[a-z0-9])?$/.test(s)`: one character, or a first and a last
      character with any of the class plus '-' between them. */
  predicate IsSubdomain(s: string)
  {
    || (|s| == 1 && LowerAlnum(s[0]))
    || (|s| >= 2 && LowerAlnum(s[0]) && LowerAlnum(s[|s| - 1])
        && forall k | 1 <= k < |s| - 1 :: LowerAlnum(s[k]) || s[k] == '-')
  }

  /** Non-empty, only lower-case letters, digits and hyphens, first and last not a hyphen. */
  predicate SubdomainShape(s: string)
  {
    && |s| > 0
    && (forall k | 0 <= k < |s| :: LowerAlnum(s[k]) || s[k] == '-')
    && s[0] != '-' && s[|s| - 1] != '-'
  }

  lemma SubdomainPatternIsShape(s: string)
    ensures IsSubdomain(s) <==> SubdomainShape(s)
  {
  }

  // ---------------------------------------------------------------- checks on request values

  // ---------------------------------------------------------------- values read as text

  /** `String(v)`: the text a body value converts to where a string is expected, as a regular
      expression's `test` converts its argument. `numberText` is JavaScript's printing of
      numbers, which this model takes as given rather than defining. */
  function Printed(v: Value, numberText: real -> string): string
  {
    match v
    case Null => "null"
    case Bool(b) => if b then "true" else "false"
    case Num(n) => numberText(n)
    case Str(s) => s
    case Array(_, text) => text
    case Object => "[object Object]"
  }

  /** `v.length < n` holds: a string shorter than `n` UTF-16 units or an array of fewer than
      `n` elements. Other values have no length, and `undefined < n` is false. */
  predicate LengthBelow(v: Value, n: nat)
  {
    match v
    case Str(s) => Utf16Length(s) < n
    case Array(length, _) => length < n
    case _ => false
  }

  /** `emailRegex.test(v)` for a present body value. */
  predicate EmailValueOk(v: Option<Value>, numberText: real -> string)
  {
    v.Some? && IsEmail(Printed(v.value, numberText))
  }

  /** `password.length < 8` is false for a present body value. */
  predicate LongEnough(v: Option<Value>)
  {
    v.Some? && !LengthBelow(v.value, 8)
  }

  /** `uuidRegex.test(v)` for a body value. A string and an array are tested on their text;
      null, booleans and objects print as words, and a number prints in at most 25 characters,
      so none of those is 36 characters long. */
  predicate IsUuidValue(v: Value)
  {
    (v.Str? && IsUuid(v.s)) || (v.Array? && IsUuid(v.text))
  }

  /** A value the database takes for an optional text column when it is written as given:
      absent (not written), null or a string. */
  predicate TextOrAbsent(v: Option<Value>)
  {
    v.None? || v.value.Null? || v.value.Str?
  }

  /** A value the database takes when it is written as `v || null`: anything falsy becomes
      null, so only a truthy value that is not a string is refused. */
  predicate FalsyOrText(v: Option<Value>)
  {
    !Truthy(v) || v.value.Str?
  }

  /** A body value that is a string with something besides whitespace in it. */
  predicate IsNonBlankString(v: Option<Value>)
  {
    v.Some? && v.value.Str? && |Trim(v.value.s)| != 0
  }

  /** `OneOf(prefix, names)`: the 400 an enumeration check answers with, listing the accepted names. */
  function OneOf(prefix: string, names: seq<string>): (e: ApiError)
    ensures e.status == 400
  {
    BadRequest(prefix + " Must be one of: " + Join(names, ", "))
  }

  /** An optional body field checked with `!== undefined` and `includes`: absent, or a string among
      `names` (`includes` compares with `===`, so no other value is among them). */
  predicate EnumOk(v: Option<Value>, names: seq<string>)
  {
    v.None? || (v.value.Str? && v.value.s in names)
  }

  /** A value found among names that are all non-empty strings is truthy, so `!v || !includes(v)`
      refuses exactly the values `includes` refuses. */
  lemma NamedIsTruthy(v: Option<Value>, names: seq<string>)
    requires "" !in names
    ensures v.Some? && EnumOk(v, names) ==> Truthy(v)
  {
  }

  /** A string with something besides whitespace in it is not empty, so it is truthy. */
  lemma NonBlankIsTruthy(v: Option<Value>)
    ensures IsNonBlankString(v) ==> Truthy(v)
  {
    if IsNonBlankString(v) {
      assert |TrimStart(v.value.s)| <= |v.value.s|;
    }
  }

  /** An optional body field that, when present, must be a string with something besides
      whitespace in it. */
  predicate NonBlankOk(v: Option<Value>)
  {
    v.None? || IsNonBlankString(v)
  }

  /** An optional body field checked with `!== undefined && !== null` and the UUID pattern. */
  predicate UuidOrNullOk(v: Option<Value>)
  {
    v.None? || v.value.Null? || IsUuidValue(v.value)
  }

  /** An optional query parameter checked with `!== undefined` and `includes`, which compares
      with `===`: a composite value is never among the names. */
  predicate EnumParamOk(p: Option<QueryValue>, names: seq<string>)
  {
    p.None? || (p.value.Single? && p.value.s in names)
  }

  /** An optional text field as the models store it: the string the body gives, or nothing
      (absent, null, or not a string). */
  function TextArg(v: Option<Value>): (r: Option<string>)
    ensures r.Some? <==> v.Some? && v.value.Str?
    ensures r.Some? ==> r.value == v.value.s
  {
    if v.Some? && v.value.Str? then Some(v.value.s) else None
  }

  /** A query parameter read by `parseInt`: absent, not a number, or the integer it starts with.
      An integer reading also carries what `Number()` makes of the same string (None for NaN or
      an infinity), since the list models go on to compute with the raw string. */
  datatype Parsed = Undefined | NaN | Int(value: int, number: Option<real>)

  /** The page check of every list endpoint. */
  function CheckPage(page: Parsed): (r: Option<ApiError>)
    ensures r.None? <==> page.Undefined? || (page.Int? && page.value >= 1)
    ensures r.Some? ==> r.value == BadRequest("Page must be a positive integer")
  {
    if page.Undefined? then None
    else if page.NaN? || page.value < 1 then Some(BadRequest("Page must be a positive integer"))
    else None
  }

  /** The limit check of every list endpoint. */
  function CheckLimit(limit: Parsed): (r: Option<ApiError>)
    ensures r.None? <==> limit.Undefined? || (limit.Int? && 1 <= limit.value <= 100)
    ensures r.Some? ==> r.value == BadRequest("Limit must be between 1 and 100")
  {
    if limit.Undefined? then None
    else if limit.NaN? || limit.value < 1 || limit.value > 100 then
      Some(BadRequest("Limit must be between 1 and 100"))
    else None
  }

  /** A paging parameter that passed its check, handed on to the list models as the raw string
      it was: both its `parseInt` and its `Number()` readings. */
  function ParsedArg(p: Parsed): (r: Option<Arg>)
    ensures r.Some? <==> p.Int?
    ensures r.Some? ==> r.value.parsed == p.value && r.value.number == p.number
  {
    if p.Int? then Some(Arg(p.value, p.number)) else None
  }

  /** Paging parameters that passed both checks are what every list model needs. */
  lemma CheckedPagingOk(page: Parsed, limit: Parsed)
    requires CheckPage(page).None? && CheckLimit(limit).None?
    ensures PagingOk(ParsedArg(page), ParsedArg(limit))
    ensures ParsedArg(limit).Some? ==> ParsedArg(limit).value.parsed <= 100
  {
  }

  /** The keys of a body are distinct, as the models' update records require. */
  lemma KeysDistinct(body: Body)
    ensures Distinct(Keys(body))
  {
  }

  /** A UUID-shaped string is a valid row identifier. */
  lemma UuidIsId(s: string)
    requires IsUuid(s)
    ensures s != ""
  {
    UuidPatternIsShape(s);
  }
}
