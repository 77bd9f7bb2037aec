/**
 * The two string helpers of the utilities module: normalising an airport
 * code and extracting the city from an airport name. Whitespace is Python's
 * full `str.isspace` set; case conversion touches only a-z and the letters
 * of `[A-Za-z]` are the ASCII ones.
 */
module TextUtils {
  import opened Wrappers

  // ---------------------------------------------------------------- characters

  /**
   * Python's `str.isspace()`, which both `strip()` and the `\s` of a str
   * pattern use: tab to carriage return, the file, group, record and unit
   * separators (U+001C to U+001F), the space, and the Unicode spaces.
   */
  predicate IsSpace(c: char)
  {
    || '\t' <= c <= '\r' || '\U{001C}' <= c <= ' '
    || c == '\U{0085}' || c == '\U{00A0}' || c == '\U{1680}' || '\U{2000}' <= c <= '\U{200A}'
    || c == '\U{2028}' || c == '\U{2029}' || c == '\U{202F}' || c == '\U{205F}' || c == '\U{3000}'
  }

  predicate IsLower(c: char)
  {
    'a' <= c <= 'z'
  }

  predicate IsLetter(c: char)
  {
    'a' <= c <= 'z' || 'A' <= c <= 'Z'
  }

  /** The character class `[A-Za-z\s]`. */
  predicate IsNameChar(c: char)
  {
    IsLetter(c) || IsSpace(c)
  }

  function UpperChar(c: char): (u: char)
    ensures !IsLower(u)
    ensures !IsLower(c) ==> u == c
    ensures IsSpace(u) <==> IsSpace(c)
  {
    if IsLower(c) then (c as int - 32) as char else c
  }

  // ---------------------------------------------------------------- str.strip and str.upper

  /** Length of the leading whitespace run: where `str.lstrip()` starts. */
  function SpaceRun(s: string): (n: nat)
    ensures n <= |s|
    ensures forall k :: 0 <= k < n ==> IsSpace(s[k])
    ensures n < |s| ==> !IsSpace(s[n])
    decreases |s|
  {
    if s != [] && IsSpace(s[0]) then 1 + SpaceRun(s[1..]) else 0
  }

  /** Where `str.rstrip()` ends when the scan may not go below `lo`. */
  function TrailingEnd(s: string, lo: nat, hi: nat): (j: nat)
    requires lo <= hi <= |s|
    ensures lo <= j <= hi
    ensures forall k :: j <= k < hi ==> IsSpace(s[k])
    ensures lo < j ==> !IsSpace(s[j - 1])
    decreases hi
  {
    if lo < hi && IsSpace(s[hi - 1]) then TrailingEnd(s, lo, hi - 1) else hi
  }

  /** `str.strip()`: the slice left when the whitespace at both ends is dropped. */
  function Strip(s: string): (r: string)
    ensures |r| <= |s|
    ensures r != [] ==> !IsSpace(r[0]) && !IsSpace(r[|r| - 1])
    ensures r == [] ==> forall k :: 0 <= k < |s| ==> IsSpace(s[k])
  {
    var i := SpaceRun(s);
    var j := TrailingEnd(s, i, |s|);
    s[i..j]
  }

  /** Strip drops only whitespace: it returns a middle slice with nothing but whitespace around it. */
  lemma StripIsSlice(s: string)
    ensures exists i, j :: 0 <= i <= j <= |s| && Strip(s) == s[i..j] &&
              (forall k :: 0 <= k < i ==> IsSpace(s[k])) && (forall k :: j <= k < |s| ==> IsSpace(s[k]))
  {
    var i := SpaceRun(s);
    var j := TrailingEnd(s, i, |s|);
    assert Strip(s) == s[i..j];
  }

  /** A string without whitespace at either end is its own strip. */
  lemma StripFixed(s: string)
    requires s != [] ==> !IsSpace(s[0]) && !IsSpace(s[|s| - 1])
    ensures Strip(s) == s
  {
    if s != [] {
      assert SpaceRun(s) == 0;
      assert TrailingEnd(s, 0, |s|) == |s|;
    }
  }

  /** `str.upper()` on ASCII letters. */
  function Upper(s: string): (u: string)
    ensures |u| == |s|
    ensures forall k :: 0 <= k < |s| ==> u[k] == UpperChar(s[k])
  {
    seq(|s|, k requires 0 <= k < |s| => UpperChar(s[k]))
  }

  // ---------------------------------------------------------------- format_airport_code

  /** `format_airport_code`: stripped and upper-cased; an invalid code is only logged, never rejected. */
  function FormatAirportCode(code: string): (r: string)
    ensures |r| <= |code|
    ensures forall k :: 0 <= k < |r| ==> !IsLower(r[k])
    ensures r != [] ==> !IsSpace(r[0]) && !IsSpace(r[|r| - 1])
    ensures code == [] ==> r == []
  {
    if code == [] then []
    else Upper(Strip(code))
  }

  /** Formatting a formatted code changes nothing. */
  lemma FormatAirportCodeIdempotent(code: string)
    ensures FormatAirportCode(FormatAirportCode(code)) == FormatAirportCode(code)
  {
    var once := FormatAirportCode(code);
    if once != [] {
      StripFixed(once);
      assert Upper(once) == once;
    }
  }

  /** A code with no surrounding whitespace is only upper-cased: " syd " and "syd" both give "SYD". */
  lemma FormatAirportCodeUppercases(code: string)
    requires code != [] ==> !IsSpace(code[0]) && !IsSpace(code[|code| - 1])
    ensures FormatAirportCode(code) == Upper(code)
  {
    StripFixed(code);
  }

  /** An invalid code (four characters, one a digit) is still returned, stripped and upper-cased. */
  lemma InvalidCodeIsReturned(code: string)
    requires code == " mel1 "
    ensures FormatAirportCode(code) == "MEL1"
  {
    assert SpaceRun(code) == 1;
    assert TrailingEnd(code, 1, |code|) == 5;
    assert Strip(code) == "mel1";
  }

  // ---------------------------------------------------------------- extract_city_name

  /** Length of the longest prefix of `[A-Za-z\s]` characters. */
  function NamePrefixLength(s: string): (n: nat)
    ensures n <= |s|
    ensures forall k :: 0 <= k < n ==> IsNameChar(s[k])
    ensures n < |s| ==> !IsNameChar(s[n])
    decreases |s|
  {
    if s != [] && IsNameChar(s[0]) then 1 + NamePrefixLength(s[1..]) else 0
  }

  /** `w` occurs in `s` at position `k`. */
  predicate OccursAt(s: string, w: string, k: nat)
  {
    k + |w| <= |s| && s[k..k + |w|] == w
  }

  /**
   * The text after the name group can close the pattern: for the first
   * pattern a whitespace and one of the suffix words, for the second a
   * whitespace and an opening parenthesis.
   */
  predicate ClosesPattern(s: string, pattern: nat, k: nat)
  {
    && k < |s| && IsSpace(s[k])
    && (if pattern == 0 then OccursAt(s, "Airport", k + 1) || OccursAt(s, "International", k + 1) || OccursAt(s, "Domestic", k + 1)
        else k + 1 < |s| && s[k + 1] == '(')
  }

  /** `^([A-Za-z\s]+)` followed by the pattern's closing text, with the group ending at `k`. */
  predicate MatchesAt(s: string, pattern: nat, k: nat)
  {
    1 <= k <= NamePrefixLength(s) && ClosesPattern(s, pattern, k)
  }

  /** The greedy group end: the largest `k` up to `n` at which the pattern matches. */
  function LastMatch(s: string, pattern: nat, n: nat): (m: Option<nat>)
    ensures m.Some? ==> m.value <= n && MatchesAt(s, pattern, m.value)
    ensures forall k :: (if m.Some? then m.value else 0) < k <= n ==> !MatchesAt(s, pattern, k)
  {
    if n == 0 then None
    else if MatchesAt(s, pattern, n) then Some(n)
    else LastMatch(s, pattern, n - 1)
  }

  /** `re.search(pattern, s).group(1)`, or None when the pattern does not match. */
  function PatternGroup(s: string, pattern: nat): (g: Option<string>)
    ensures g.Some? ==> g.value != [] && forall k :: 0 <= k < |g.value| ==> IsNameChar(g.value[k])
    ensures g.Some? ==> exists k: nat :: MatchesAt(s, pattern, k) && g.value == s[..k] &&
                                   forall k' :: k < k' <= |s| ==> !MatchesAt(s, pattern, k')
    ensures g.None? <==> forall k :: 0 <= k <= |s| ==> !MatchesAt(s, pattern, k)
  {
    match LastMatch(s, pattern, NamePrefixLength(s))
    case None => None
    case Some(k) => Some(s[..k])
  }

  const PatternCount := 2

  /** The group of the first of `pattern`, `pattern + 1`, ... that matches. */
  function FirstGroupFrom(s: string, pattern: nat): (g: Option<string>)
    ensures g.Some? ==> 0 < |g.value| <= |s| && forall k :: 0 <= k < |g.value| ==> IsNameChar(g.value[k])
    decreases PatternCount - pattern
  {
    if pattern >= PatternCount then None
    else match PatternGroup(s, pattern)
      case Some(g) => Some(g)
      case None => FirstGroupFrom(s, pattern + 1)
  }

  /** `s.replace(w, '')`: every non-overlapping occurrence of `w`, scanning left to right, removed. */
  function RemoveAll(s: string, w: string): (r: string)
    requires w != []
    ensures |r| <= |s|
    decreases |s|
  {
    if s == [] then []
    else if OccursAt(s, w, 0) then RemoveAll(s[|w|..], w)
    else [s[0]] + RemoveAll(s[1..], w)
  }

  /** The suffixes the fallback removes, in order. */
  const FallbackSuffixes: seq<string> := [" Airport", " International", " Domestic", " Regional"]

  /** The fallback's suffix removals, applied in order. */
  function RemoveSuffixes(s: string, suffixes: seq<string>): (r: string)
    requires forall k :: 0 <= k < |suffixes| ==> suffixes[k] != []
    ensures |r| <= |s|
    decreases |suffixes|
  {
    if suffixes == [] then s
    else RemoveSuffixes(RemoveAll(s, suffixes[0]), suffixes[1..])
  }

  /** Position of the first ')' at or after `from`, if any. */
  function CloseParen(s: string, from: nat): (p: Option<nat>)
    ensures p.Some? ==> from <= p.value < |s| && s[p.value] == ')' &&
                        forall k :: from <= k < p.value ==> s[k] != ')'
    ensures p.None? ==> forall k :: from <= k < |s| ==> s[k] != ')'
    decreases |s| - from
  {
    if from >= |s| then None
    else if s[from] == ')' then Some(from)
    else CloseParen(s, from + 1)
  }

  /**
   * Length of the `\s*\([^)]*\)` match at the start of `s`: the whitespace
   * run, '(' and everything up to and including the first ')'.
   */
  function ParenMatch(s: string): (n: Option<nat>)
    ensures n.Some? ==> 0 < n.value <= |s| && s[n.value - 1] == ')'
  {
    var w := SpaceRun(s);
    if w < |s| && s[w] == '(' then
      match CloseParen(s, w + 1)
      case None => None
      case Some(p) => Some(p + 1)
    else None
  }

  /** `re.sub(r'\s*\([^)]*\)', '', s)`: every match, scanning left to right, removed. */
  function RemoveParenthesised(s: string): (r: string)
    ensures |r| <= |s|
    decreases |s|
  {
    if s == [] then []
    else match ParenMatch(s)
      case Some(n) => RemoveParenthesised(s[n..])
      case None => [s[0]] + RemoveParenthesised(s[1..])
  }

  /** A string with no ')' has no parenthesised part to remove. */
  lemma {:induction false} RemoveParenthesisedWithoutClose(s: string)
    requires forall k :: 0 <= k < |s| ==> s[k] != ')'
    ensures RemoveParenthesised(s) == s
    decreases |s|
  {
    if s != [] {
      assert ParenMatch(s).None?;
      assert forall k :: 0 <= k < |s[1..]| ==> s[1..][k] == s[k + 1];
      RemoveParenthesisedWithoutClose(s[1..]);
    }
  }

  /** What `extract_city_name` returns: the text it picks, stripped. */
  function CityName(name: string): (city: string)
    ensures city != [] ==> !IsSpace(city[0]) && !IsSpace(city[|city| - 1])
    ensures |city| <= |name|
  {
    Strip(CityText(name))
  }

  /**
   * The text `extract_city_name` strips: the group of the first pattern that
   * matches; otherwise the name with the suffixes removed in order and then
   * the parenthesised parts removed.
   */
  function CityText(name: string): (text: string)
    ensures |text| <= |name|
  {
    if name == [] then []
    else match FirstGroupFrom(name, 0)
      case Some(g) => g
      case None => RemoveParenthesised(RemoveSuffixes(name, FallbackSuffixes))
  }

  /**
   * `extract_city_name`: the first pattern whose group matches gives the
   * stripped group; otherwise the suffixes are removed one after the other,
   * then the parenthesised parts, and the rest is stripped.
   */
  method ExtractCityName(name: string) returns (city: string)
    ensures city == CityName(name)
  {
    if name == [] {
      return [];
    }
    var pattern := 0;
    while pattern < PatternCount
      invariant 0 <= pattern <= PatternCount
      invariant FirstGroupFrom(name, 0) == FirstGroupFrom(name, pattern)
    {
      var group := PatternGroup(name, pattern);
      if group.Some? {
        return Strip(group.value);
      }
      pattern := pattern + 1;
    }
    var result := name;
    for i := 0 to |FallbackSuffixes|
      invariant RemoveSuffixes(result, FallbackSuffixes[i..]) == RemoveSuffixes(name, FallbackSuffixes)
    {
      assert FallbackSuffixes[i..][1..] == FallbackSuffixes[i + 1..];
      result := RemoveAll(result, FallbackSuffixes[i]);
    }
    city := Strip(RemoveParenthesised(result));
  }

  /**
   * When a pattern matches, the city is a run of letters and whitespace
   * taken from the start of the name, before " Airport", " International",
   * " Domestic" or " (".
   */
  lemma PatternCityIsNamePrefix(name: string)
    requires FirstGroupFrom(name, 0).Some?
    ensures forall k :: 0 <= k < |CityName(name)| ==> IsNameChar(CityName(name)[k])
    ensures exists k: nat :: (MatchesAt(name, 0, k) || MatchesAt(name, 1, k)) &&
                             exists i, j :: 0 <= i <= j <= k && CityName(name) == name[i..j]
  {
    var k: nat := MatchedGroupEnd(name);
    StripOfPrefix(name, k);
  }

  /**
   * When the first pattern matches, the city is the longest matching group,
   * stripped.
   */
  lemma FirstPatternCity(name: string)
    requires exists k :: 0 <= k <= |name| && MatchesAt(name, 0, k)
    ensures exists k: nat :: && MatchesAt(name, 0, k)
                             && (forall k' :: k < k' <= |name| ==> !MatchesAt(name, 0, k'))
                             && CityName(name) == Strip(name[..k])
  {
    var g := PatternGroup(name, 0);
    assert g.Some?;
    assert name != [];
    assert FirstGroupFrom(name, 0) == g;
  }

  /**
   * When only the second pattern matches, the city is its longest matching
   * group, stripped.
   */
  lemma SecondPatternCity(name: string)
    requires forall k :: 0 <= k <= |name| ==> !MatchesAt(name, 0, k)
    requires exists k :: 0 <= k <= |name| && MatchesAt(name, 1, k)
    ensures exists k: nat :: && MatchesAt(name, 1, k)
                             && (forall k' :: k < k' <= |name| ==> !MatchesAt(name, 1, k'))
                             && CityName(name) == Strip(name[..k])
  {
    var g := PatternGroup(name, 1);
    assert g.Some? && PatternGroup(name, 0).None?;
    assert name != [];
    assert FirstGroupFrom(name, 0) == g;
  }

  /** When neither pattern matches, the city is the fallback: suffixes, then parenthesised parts, removed. */
  lemma FallbackCity(name: string)
    requires name != []
    requires forall k :: 0 <= k <= |name| ==> !MatchesAt(name, 0, k) && !MatchesAt(name, 1, k)
    ensures CityName(name) == Strip(RemoveParenthesised(RemoveSuffixes(name, FallbackSuffixes)))
  {
    assert PatternGroup(name, 0).None? && PatternGroup(name, 1).None?;
    assert FirstGroupFrom(name, 0).None?;
  }

  /** Where the group of the first matching pattern ends; the city is that prefix stripped. */
  lemma MatchedGroupEnd(name: string) returns (k: nat)
    requires FirstGroupFrom(name, 0).Some?
    ensures MatchesAt(name, 0, k) || MatchesAt(name, 1, k)
    ensures CityName(name) == Strip(name[..k])
  {
    var pattern := if PatternGroup(name, 0).Some? then 0 else 1;
    var g := PatternGroup(name, pattern).value;
    assert FirstGroupFrom(name, 0) == Some(g);
    k :| MatchesAt(name, pattern, k) && g == name[..k];
  }

  /** Stripping a prefix of name characters gives name characters from inside that prefix. */
  lemma StripOfPrefix(name: string, k: nat)
    requires k <= NamePrefixLength(name)
    ensures forall t :: 0 <= t < |Strip(name[..k])| ==> IsNameChar(Strip(name[..k])[t])
    ensures exists i, j :: 0 <= i <= j <= k && Strip(name[..k]) == name[i..j]
  {
    var g := name[..k];
    var i := SpaceRun(g);
    var j := TrailingEnd(g, i, |g|);
    assert g[i..j] == name[i..j];
  }

  /** A plain city name with no airport words and no parentheses is returned as it is. */
  lemma PlainNameIsKept(name: string)
    requires forall k :: 0 <= k < |name| ==> IsLetter(name[k])
    ensures CityName(name) == name
  {
    if name != [] {
      forall pattern: nat, k: nat | k <= |name| ensures !MatchesAt(name, pattern, k) {
      }
      assert PatternGroup(name, 0).None? && PatternGroup(name, 1).None?;
      assert FirstGroupFrom(name, 0).None?;
      NoSpaceNoSuffix(name, FallbackSuffixes);
      RemoveParenthesisedWithoutClose(name);
      StripFixed(name);
    }
  }

  /** Removing suffixes that all start with a space leaves a string without spaces alone. */
  lemma {:induction false} NoSpaceNoSuffix(name: string, suffixes: seq<string>)
    requires forall k :: 0 <= k < |name| ==> IsLetter(name[k])
    requires forall k :: 0 <= k < |suffixes| ==> suffixes[k] != [] && suffixes[k][0] == ' '
    ensures RemoveSuffixes(name, suffixes) == name
    decreases |suffixes|
  {
    if suffixes != [] {
      RemoveAbsent(name, suffixes[0]);
      NoSpaceNoSuffix(name, suffixes[1..]);
    }
  }

  /** Removing a word that starts with a space from a string without spaces changes nothing. */
  lemma {:induction false} RemoveAbsent(s: string, w: string)
    requires w != [] && w[0] == ' '
    requires forall k :: 0 <= k < |s| ==> IsLetter(s[k])
    ensures RemoveAll(s, w) == s
    decreases |s|
  {
    if s != [] {
      assert !OccursAt(s, w, 0) by {
        assert !IsLetter(w[0]);
      }
      RemoveAbsent(s[1..], w);
    }
  }

  /** The name the source's own comment uses: "Sydney Airport (SYD)" gives "Sydney". */
  lemma SydneyAirportExample(s: string)
    requires s == "Sydney Airport (SYD)"
    ensures CityName(s) == "Sydney"
  {
    assert NamePrefixLength(s) == 15 by {
      assert forall k :: 0 <= k < 15 ==> IsNameChar(s[k]);
      assert !IsNameChar(s[15]);
    }
    assert OccursAt(s, "Airport", 7);
    assert MatchesAt(s, 0, 6);
    forall k: nat | 6 < k <= 15 ensures !MatchesAt(s, 0, k) {
      assert k == 14 || !IsSpace(s[k]);
    }
    assert PatternGroup(s, 0) == Some(s[..6]);
    assert s[..6] == "Sydney";
    StripFixed("Sydney");
  }
}
