/**
 * Normalisation of the URL typed by the user, shared by the home page and the
 * results page: the input is trimmed, an empty input gives "", and `https://` is
 * put in front unless the input already starts with `http://` or `https://` in
 * any mix of upper and lower case.
 */
module UrlInput {

  /**
   * The characters String.prototype.trim removes: the WhiteSpace and LineTerminator
   * code points of ECMAScript (tab, vertical tab, form feed, space, no-break space,
   * zero width no-break space, the Unicode space separators, LF, CR, LS and PS).
   */
  predicate IsTrimmable(c: char) {
    || c == '\t' || c == '\n' || c == '\U{000B}' || c == '\U{000C}' || c == '\r' || c == ' '
    || c == '\U{00A0}' || c == '\U{1680}' || ('\U{2000}' <= c <= '\U{200A}')
    || c == '\U{2028}' || c == '\U{2029}' || c == '\U{202F}' || c == '\U{205F}'
    || c == '\U{3000}' || c == '\U{FEFF}'
  }

  /** Removes the leading trimmable characters. */
  function TrimStart(s: string): (r: string)
    ensures |r| <= |s| && r == s[|s| - |r|..]
    ensures forall i :: 0 <= i < |s| - |r| ==> IsTrimmable(s[i])
    ensures r == [] || !IsTrimmable(r[0])
  {
    if s != [] && IsTrimmable(s[0]) then TrimStart(s[1..]) else s
  }

  /** Removes the trailing trimmable characters. */
  function TrimEnd(s: string): (r: string)
    ensures |r| <= |s| && r == s[..|r|]
    ensures forall i :: |r| <= i < |s| ==> IsTrimmable(s[i])
    ensures r == [] || !IsTrimmable(r[|r| - 1])
  {
    if s != [] && IsTrimmable(s[|s| - 1]) then TrimEnd(s[..|s| - 1]) else s
  }

  /** `s` is `r` with `k` trimmable characters in front of it and only trimmable characters behind it. */
  predicate PaddedAt(s: string, r: string, k: int) {
    && 0 <= k <= |s| - |r| && r == s[k..k + |r|]
    && (forall i :: 0 <= i < k ==> IsTrimmable(s[i]))
    && (forall i :: k + |r| <= i < |s| ==> IsTrimmable(s[i]))
  }

  /** The input without its leading and trailing whitespace. */
  function Trim(s: string): (r: string)
    ensures exists k :: PaddedAt(s, r, k)
    ensures r == [] || (!IsTrimmable(r[0]) && !IsTrimmable(r[|r| - 1]))
  {
    var t := TrimStart(s);
    var r := TrimEnd(t);
    assert r != [] ==> r[0] == t[0];
    TrimBothPadded(s, t, r);
    r
  }

  lemma TrimBothPadded(s: string, t: string, r: string)
    requires |t| <= |s| && t == s[|s| - |t|..] && forall i :: 0 <= i < |s| - |t| ==> IsTrimmable(s[i])
    requires |r| <= |t| && r == t[..|r|] && forall i :: |r| <= i < |t| ==> IsTrimmable(t[i])
    ensures PaddedAt(s, r, |s| - |t|)
  {
    var k := |s| - |t|;
    forall i | k + |r| <= i < |s| ensures IsTrimmable(s[i]) {
      assert s[i] == t[i - k];
    }
  }

  /** Trimming is the identity on a string that neither starts nor ends with whitespace. */
  lemma TrimOfTrimmed(s: string)
    requires s == [] || (!IsTrimmable(s[0]) && !IsTrimmable(s[|s| - 1]))
    ensures Trim(s) == s
  {
  }

  /** Trimming leaves nothing exactly when the input is all whitespace. */
  lemma TrimEmpty(s: string)
    ensures Trim(s) == [] <==> forall i :: 0 <= i < |s| ==> IsTrimmable(s[i])
  {
  }

  /** `c` is the ASCII letter `lower` in either case, as a case-insensitive regular expression compares it. */
  predicate SameLetter(c: char, lower: char)
    requires 'a' <= lower <= 'z'
  {
    c == lower || c as int == lower as int - 32
  }

  /** ASCII lower-casing of one character. */
  function LowerChar(c: char): char {
    if 'A' <= c <= 'Z' then (c as int + 32) as char else c
  }

  /** `v` starts with `p` once the ASCII letters of `v` are lower-cased. */
  predicate StartsWithIgnoringCase(v: string, p: string) {
    |v| >= |p| && forall i :: 0 <= i < |p| ==> LowerChar(v[i]) == p[i]
  }

  /** Lower-casing gives a letter exactly for that letter in either case, and `:` or `/` only for itself. */
  lemma LowerCharMatches(c: char, l: char)
    ensures 'a' <= l <= 'z' ==> (LowerChar(c) == l <==> SameLetter(c, l))
    ensures (l == ':' || l == '/') ==> (LowerChar(c) == l <==> c == l)
  {
  }

  /** `v` starts with `http://` ignoring case, character by character. */
  lemma HttpPrefixAt(v: string)
    ensures StartsWithIgnoringCase(v, "http://") <==>
      && |v| >= 7
      && SameLetter(v[0], 'h') && SameLetter(v[1], 't') && SameLetter(v[2], 't') && SameLetter(v[3], 'p')
      && v[4] == ':' && v[5] == '/' && v[6] == '/'
  {
    var p := "http://";
    assert |p| == 7 && p[0] == 'h' && p[1] == 't' && p[2] == 't' && p[3] == 'p';
    assert p[4] == ':' && p[5] == '/' && p[6] == '/';
    if |v| >= 7 {
      LowerCharMatches(v[0], 'h');
      LowerCharMatches(v[1], 't');
      LowerCharMatches(v[2], 't');
      LowerCharMatches(v[3], 'p');
      LowerCharMatches(v[4], ':');
      LowerCharMatches(v[5], '/');
      LowerCharMatches(v[6], '/');
      if SameLetter(v[0], 'h') && SameLetter(v[1], 't') && SameLetter(v[2], 't') && SameLetter(v[3], 'p')
        && v[4] == ':' && v[5] == '/' && v[6] == '/'
      {
        forall i | 0 <= i < 7 ensures LowerChar(v[i]) == p[i] {
          if i == 0 {} else if i == 1 {} else if i == 2 {} else if i == 3 {}
          else if i == 4 {} else if i == 5 {} else {}
        }
      }
    }
  }

  /** `v` starts with `https://` ignoring case, character by character. */
  lemma HttpsPrefixAt(v: string)
    ensures StartsWithIgnoringCase(v, "https://") <==>
      && |v| >= 8
      && SameLetter(v[0], 'h') && SameLetter(v[1], 't') && SameLetter(v[2], 't') && SameLetter(v[3], 'p')
      && SameLetter(v[4], 's') && v[5] == ':' && v[6] == '/' && v[7] == '/'
  {
    var p := "https://";
    assert |p| == 8 && p[0] == 'h' && p[1] == 't' && p[2] == 't' && p[3] == 'p' && p[4] == 's';
    assert p[5] == ':' && p[6] == '/' && p[7] == '/';
    if |v| >= 8 {
      LowerCharMatches(v[0], 'h');
      LowerCharMatches(v[1], 't');
      LowerCharMatches(v[2], 't');
      LowerCharMatches(v[3], 'p');
      LowerCharMatches(v[4], 's');
      LowerCharMatches(v[5], ':');
      LowerCharMatches(v[6], '/');
      LowerCharMatches(v[7], '/');
      if SameLetter(v[0], 'h') && SameLetter(v[1], 't') && SameLetter(v[2], 't') && SameLetter(v[3], 'p')
        && SameLetter(v[4], 's') && v[5] == ':' && v[6] == '/' && v[7] == '/'
      {
        forall i | 0 <= i < 8 ensures LowerChar(v[i]) == p[i] {
          if i == 0 {} else if i == 1 {} else if i == 2 {} else if i == 3 {}
          else if i == 4 {} else if i == 5 {} else if i == 6 {} else {}
        }
      }
    }
  }

  /** Three characters from `k` on spell `://`. */
  lemma ColonSlashSlashAt(v: string, k: nat)
    requires k + 3 <= |v|
    ensures v[k..k + 3] == "://" <==> v[k] == ':' && v[k + 1] == '/' && v[k + 2] == '/'
  {
    if v[k] == ':' && v[k + 1] == '/' && v[k + 2] == '/' {
      assert v[k..k + 3] == [v[k], v[k + 1], v[k + 2]];
    }
  }

  /** The input matches /^https?:\/\//i, read character by character. */
  predicate HasHttpScheme(v: string) {
    && |v| >= 7
    && SameLetter(v[0], 'h') && SameLetter(v[1], 't') && SameLetter(v[2], 't') && SameLetter(v[3], 'p')
    && (if SameLetter(v[4], 's') then |v| >= 8 && v[5..8] == "://" else v[4..7] == "://")
  }

  /** Any string put behind `https://` names an HTTP(S) scheme. */
  lemma HttpsPrefixHasScheme(v: string)
    ensures HasHttpScheme("https://" + v)
  {
    var w := "https://" + v;
    assert w[..8] == "https://";
    assert w[0] == 'h' && w[1] == 't' && w[2] == 't' && w[3] == 'p' && w[4] == 's';
    assert w[5..8] == "://";
  }

  /**
   * The empty string for blank input; otherwise the trimmed input, with `https://`
   * in front unless it already names an HTTP(S) scheme.
   */
  function NormalizeUrl(raw: string): (r: string)
    ensures r == "" <==> forall i :: 0 <= i < |raw| ==> IsTrimmable(raw[i])
    ensures HasHttpScheme(Trim(raw)) ==> r == Trim(raw)
    ensures Trim(raw) != "" && !HasHttpScheme(Trim(raw)) ==> r == "https://" + Trim(raw)
    ensures r != "" ==> HasHttpScheme(r)
  {
    TrimEmpty(raw);
    var value := Trim(raw);
    if value == "" then ""
    else if !HasHttpScheme(value) then HttpsPrefixHasScheme(value); "https://" + value
    else value
  }

  /** The scheme test is a case-insensitive prefix test for `http://` or `https://`. */
  lemma HasHttpSchemeIgnoresCase(v: string)
    ensures HasHttpScheme(v) <==> StartsWithIgnoringCase(v, "http://") || StartsWithIgnoringCase(v, "https://")
  {
    HttpPrefixAt(v);
    HttpsPrefixAt(v);
    if |v| >= 7 {
      ColonSlashSlashAt(v, 4);
      assert SameLetter(v[4], 's') ==> v[4] != ':';
    }
    if |v| >= 8 {
      ColonSlashSlashAt(v, 5);
    }
  }

  /** Normalising an already normalised URL changes nothing. */
  lemma NormalizeIdempotent(raw: string)
    ensures NormalizeUrl(NormalizeUrl(raw)) == NormalizeUrl(raw)
  {
    var r := NormalizeUrl(raw);
    if r != "" {
      NormalizedIsTrimmed(raw);
      TrimOfTrimmed(r);
      assert Trim(r) == r && HasHttpScheme(r);
    }
  }

  /** A normalised URL neither starts nor ends with whitespace. */
  lemma NormalizedIsTrimmed(raw: string)
    ensures var r := NormalizeUrl(raw); r == [] || (!IsTrimmable(r[0]) && !IsTrimmable(r[|r| - 1]))
  {
    var v := Trim(raw);
    if v != "" && !HasHttpScheme(v) {
      HttpsPrefixKeepsEnds(v);
    }
  }

  /** Putting `https://` in front of trimmed text gives trimmed text. */
  lemma HttpsPrefixKeepsEnds(v: string)
    requires v != [] && !IsTrimmable(v[|v| - 1])
    ensures var r := "https://" + v; !IsTrimmable(r[0]) && !IsTrimmable(r[|r| - 1])
  {
    var r := "https://" + v;
    assert r[0] == 'h' && r[|r| - 1] == v[|v| - 1];
  }
}
