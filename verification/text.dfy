/** String operations of the Rust standard library and the two reference
    patterns of the client, written out over `seq<char>`. */
module Text {
  import opened Wrappers

  predicate StartsWith(s: string, p: string) {
    |p| <= |s| && s[..|p|] == p
  }

  predicate EndsWith(s: string, p: string) {
    |p| <= |s| && s[|s| - |p|..] == p
  }

  /** `pat` occurs in `s` starting at position `i`. */
  predicate MatchAt(s: string, pat: string, i: nat) {
    i + |pat| <= |s| && s[i..i + |pat|] == pat
  }

  /** `pat` occurs somewhere in `s`. */
  ghost predicate Contains(s: string, pat: string) {
    exists i: nat :: MatchAt(s, pat, i)
  }

  /** Rust's `trim_end_matches(c)`: every trailing `c` removed. */
  function TrimEnd(s: string, c: char): (r: string)
    ensures |r| <= |s| && r == s[..|r|]
    ensures |r| == 0 || r[|r| - 1] != c
    ensures forall i :: |r| <= i < |s| ==> s[i] == c
  {
    if |s| > 0 && s[|s| - 1] == c then TrimEnd(s[..|s| - 1], c) else s
  }

  /** Rust's `trim_start_matches(c)`: every leading `c` removed. */
  function TrimStart(s: string, c: char): (r: string)
    ensures |r| <= |s| && r == s[|s| - |r|..]
    ensures |r| == 0 || r[0] != c
    ensures forall i :: 0 <= i < |s| - |r| ==> s[i] == c
  {
    if |s| > 0 && s[0] == c then TrimStart(s[1..], c) else s
  }

  /** Rust's `replace(pat, "")`: occurrences of `pat` found left to right,
      without overlap, are deleted. */
  function RemoveAll(s: string, pat: string): (r: string)
    requires |pat| > 0
    ensures |r| <= |s|
    decreases |s|
  {
    if |s| == 0 then ""
    else if StartsWith(s, pat) then RemoveAll(s[|pat|..], pat)
    else [s[0]] + RemoveAll(s[1..], pat)
  }

  /** A text with no occurrence of `pat` has none after its first character. */
  lemma ContainsTail(s: string, pat: string)
    requires |s| > 0 && !Contains(s, pat)
    ensures !Contains(s[1..], pat)
  {
    forall i: nat | MatchAt(s[1..], pat, i)
      ensures MatchAt(s, pat, i + 1)
    {
      assert s[1..][i..i + |pat|] == s[i + 1..i + 1 + |pat|];
    }
  }

  /** A text with no occurrence of `pat` is left unchanged by `RemoveAll`. */
  lemma {:induction false} RemoveAllAbsent(s: string, pat: string)
    requires |pat| > 0 && !Contains(s, pat)
    ensures RemoveAll(s, pat) == s
    decreases |s|
  {
    if |s| > 0 {
      assert StartsWith(s, pat) == MatchAt(s, pat, 0);
      ContainsTail(s, pat);
      RemoveAllAbsent(s[1..], pat);
    }
  }


  function IndexOf(s: string, c: char): (r: Option<nat>)
    ensures r.Some? ==> r.value < |s| && s[r.value] == c && forall i :: 0 <= i < r.value ==> s[i] != c
    ensures r.None? ==> forall i :: 0 <= i < |s| ==> s[i] != c
  {
    if |s| == 0 then None
    else if s[0] == c then Some(0)
    else match IndexOf(s[1..], c)
      case Some(k) => Some(k + 1)
      case None => None
  }

  predicate IsAsciiAlphanumeric(c: char) {
    'a' <= c <= 'z' || 'A' <= c <= 'Z' || '0' <= c <= '9'
  }

  /** A member of the character class `[a-zA-Z0-9_\-\.]`. */
  predicate IsNameChar(c: char) {
    IsAsciiAlphanumeric(c) || c == '_' || c == '-' || c == '.'
  }

  predicate AllNameChars(s: string) {
    forall i :: 0 <= i < |s| ==> IsNameChar(s[i])
  }

  /** What the anchored pattern `^[a-zA-Z0-9_\-\.]+\/[a-zA-Z0-9_\-\.]+$` accepts:
      two non-empty runs of name characters around one slash. */
  ghost predicate MatchesRegistryPattern(s: string) {
    exists k :: 0 < k < |s| - 1 && s[k] == '/' && AllNameChars(s[..k]) && AllNameChars(s[k + 1..])
  }

  /** The registry-reference test, scanning for the first slash. */
  function IsRegistryReference(s: string): (b: bool)
    ensures b <==> MatchesRegistryPattern(s)
  {
    match IndexOf(s, '/')
    case None => false
    case Some(k) =>
      SlashIsUnique(s, k);
      0 < k < |s| - 1 && AllNameChars(s[..k]) && AllNameChars(s[k + 1..])
  }

  /** Name characters exclude the slash, so a text matching the registry
      pattern has its separating slash at the first slash. */
  lemma SlashIsUnique(s: string, k: nat)
    requires k < |s| && s[k] == '/' && forall i :: 0 <= i < k ==> s[i] != '/'
    ensures forall k' :: 0 < k' < |s| - 1 && s[k'] == '/' && AllNameChars(s[..k']) ==> k' == k
  {
    forall k' | 0 < k' < |s| - 1 && s[k'] == '/' && AllNameChars(s[..k'])
      ensures k' == k
    {
      forall i | 0 <= i < k'
        ensures s[i] != '/'
      {
        assert s[..k'][i] == s[i];
      }
    }
  }

  /** What the unanchored pattern `.*hf\.space\/{0,1}$` accepts: a text ending in
      `hf.space`, optionally followed by one slash. */
  predicate MatchesHostedPattern(s: string) {
    EndsWith(s, "hf.space") || EndsWith(s, "hf.space/")
  }

  predicate IsDigit(c: char) {
    '0' <= c <= '9'
  }

  predicate AllDigits(s: string) {
    forall i :: 0 <= i < |s| ==> IsDigit(s[i])
  }

  /** The value of a run of decimal digits, most significant first. */
  function DecimalValue(s: string): nat
    requires AllDigits(s)
  {
    if |s| == 0 then 0
    else DecimalValue(s[..|s| - 1]) * 10 + (s[|s| - 1] as int - '0' as int)
  }

  /** Rust's `Display` of an unsigned integer: its decimal digits, no leading zero. */
  function NatToString(n: nat): (r: string)
    ensures |r| > 0 && AllDigits(r)
    ensures |r| > 1 ==> r[0] != '0'
  {
    var d := ('0' as int + n % 10) as char;
    if n < 10 then [d] else NatToString(n / 10) + [d]
  }

  /** Rust's `Display` of a signed integer: a minus sign before negative values. */
  function IntToString(i: int): string {
    if i < 0 then "-" + NatToString(-i) else NatToString(i)
  }

  /** Reading back the digits `NatToString` writes yields the number. */
  lemma {:induction false} NatToStringValue(n: nat)
    ensures DecimalValue(NatToString(n)) == n
    decreases n
  {
    var d := ('0' as int + n % 10) as char;
    if n >= 10 {
      var prefix := NatToString(n / 10);
      assert (prefix + [d])[..|prefix + [d]| - 1] == prefix;
      NatToStringValue(n / 10);
    }
  }
}
